# TurkeyBite, verified

TurkeyBite labels DNS and browser lookups by what curated lists say of their hosts. Packets go through
a durable queue on Valkey; a consumer claims a batch, weighs what the lists say of each host, names the
person behind the address from RADIUS accounting, and indexes the event in OpenSearch; a librarian
builds the domain index, ships it to the workers and keeps the retention policy; a console runs rules
over what was indexed. This project models the parts of that whose correctness takes an argument, and
proves what each is for.

| file | what it models |
|---|---|
| `Queue.dfy` | Valkey's lists and owner keys, the five scripts as loops on them, `ListQueue`, the orphan sweep |
| `Delivery.dfy` | any number of consumers, producers, crashes, lost replies, lapsed names and sweeps, interleaved one atomic step at a time |
| `Shipping.dfy` | the processor's buffer, bulk and single requests, `handle_batch`, and what the requests sent are done with |
| `EndToEnd.dfy` | the two together: what the queue lets go of, OpenSearch answered for |
| `Radius.dfy`, `SignIns.dfy` | the merge script over reports in any order, pruning, sign-ins, and the lookup of who held an address |
| `Holding.dfy` | what the merge and the lookup come to, told by times, names and devices |
| `Names.dfy`, `Layout.dfy`, `Builder.dfy`, `Fitting.dfy` | the index file byte by byte, built by interning, and when what the lists say fits in one |
| `Reading.dfy`, `Index.dfy`, `Reopening.dfy`, `RoundTrip.dfy` | the reader: binary search over whatever bytes are open, decoding on demand, remembering, reopening; and the round trip from lists to answers |
| `Psl.dfy`, `Ownership.dfy` | the Public Suffix List walk (publicsuffix.org's algorithm), and who may speak for a host |
| `Evidence.dfy`, `Lookups.dfy` | weighing claims by independent publishers, resolvers' votes, the CNAME merge |
| `Resolvers.dfy` | the checker that asks them: its cache, its back-off, and which answers a status rests on |
| `Independence.dfy` | list overlap counted once per mask of sources |
| `Patterns.dfy`, `Retention.dfy`, `Librarian.dfy` | whether two index patterns overlap, the policy reconciler as values and as the code that talks to the cluster |
| `Transport.dfy` | chunks, then the manifest, then the old generation away, against any number of fetchers |
| `Schedule.dfy` | the catch-up planner, the lease, and the mark of how far a rule has looked |

`dafny verify dfyconfig.toml` checks everything. Names and categories are the bytes of their UTF-8
text; times are microseconds, except the generations of an index file, which are seconds. What comes
from outside (clocks, answers of OpenSearch, which moves fail, when a reply is lost, what a resolver
says) is a parameter, or an event that may happen at any time.

## What turned out to need a condition

Each of these is a promise that does not hold as first put. The project keeps the code as it is, shows
an input where it fails, and proves where it holds.

- **Delivery at least once** needs more than claiming while the name is held and never settling under a
  name another held since the batch was claimed: a process that stalls between batches, and whose name
  lapsed, was held by another that died, and lapsed again, takes it back at the top of its loop and claims
  on top of items it never recovers (`Delivery.HeldAndFencedIsNotEnough`). The claim script not checking the
  name, and renewing a lapsed name unknowing, each lose items on their own too (`Delivery.UnheldClaimLoses`,
  `Delivery.RetakenSettleLoses`): for any two processes and any name they share. What suffices is one live
  process to a name: nothing is lost as long as a process takes no further step once another has begun under
  its name, however often it is restarted under it (`Delivery.OneAtATimeSuffices`). So a way of naming
  processes loses nothing if and only if no two that may be alive at once share a name
  (`Delivery.NamingLosesNothing`).
- **A reopened index** answers what the file now open says if and only if every trust level of that file is
  known, or it has no rows (`Reopening.ReopeningTells`). A file with an unknown one is left half open: its
  header and categories are the new file's, its sources, its offsets and the claim sets decoded before are the
  old one's, the object is kept, and the next call finds the same file and does nothing
  (`Index.DomainIndex.ReloadIfChanged`). Lookups then answer from both, or raise
  (`Reopening.HalfOpenMisleads`, `Reopening.ExampleMisleads`). After a file of another format, or none,
  they all raise if and only if the header read last told of rows; if it told of none they all answer, in silence,
  that nobody claims anything (`Reopening.RefusedRaises`).
- **An index is built of any entries** if and only if they fit, which is counted on the entries: keys, claim
  sets, categories, sources and bytes (`Fitting.WritableIffFit`, `RoundTrip.BuildOpenAsk`).
- **Adding a positive claim** can un-assert categories: a claim spelled `Incidental` supports the mark
  `incidental` (`Evidence.OtherSpellingUndoes`, `Evidence.Spelled`). Nothing is lost if and only if the claim
  would not mark the host, or only risk is asserted, where it would mark the host exactly when nobody is
  navigating there, the mark is claimed, before or by it, and each of the mark's statements is supported already
  or made by the claim with backing enough: all of it to be seen before (`Evidence.AddingKeeps`). A claim that
  says nothing the mark says never does (`Evidence.AddingElsewhere`).
- **Resolver votes only promote** as long as no vote says what the mark says. With the taxonomy's rows for
  `malicious` and `porn`, and none for the mark, that holds of the three resolvers there are
  (`Lookups.ProvidersVote`); one that did say it could un-assert a category (`Lookups.VoteOfTheMarkUndoes`).
- **A public suffix's entry stays silent below it** except for a host whose own labels spell the subtree
  key, `*.github.io` say, or `www.*.github.io` by its alias: `Ownership.SuffixSilent` for every other host,
  `Ownership.SpelledSpeaks` for those.
- **A fetch during which no publish completes** ends on the manifest's generation, whatever else is uploaded,
  deleted or dies meanwhile, if and only if one of two things is so when it begins (`Transport.FetchEnds`). The
  worker's marker names that generation and its file is that generation's; or the marker names another, the
  chunks under the number make up the manifest's file, an upload under way under that number has only the same
  bytes still to write over them, and none may begin, unless there is no chunk to overwrite. Publishing ever
  later generations is enough (`Transport.FreshFetchEnds`). A number used twice, an older file published again,
  or a publish under the same number that died half way is not (`Transport.ReusedMisleads`,
  `Transport.OlderAgainMisleads`, `Transport.AbandonedSpoils`).
- **What a run left out is told in its note** unless the run met an error after a window it had evaluated: the
  error's text takes the note's place, and the mark moves past the span (`Schedule.NoteLost`, a run of that
  kind). While a rule's window is never made longer, the moments between its marks that no run looked at and no
  note tells of are exactly those spans, so nothing is left out in silence if and only if there is none
  (`Schedule.SilentExactly`). A window made longer can look back over one (`Schedule.LongerLooksBack`).
- **Runs that record take turns** as long as the database's time does not go back between claims; if it does, two
  claims can have one lease (`Schedule.ClockBackOverlaps`). It need not move on, either.

## Model

| member | source | states |
|---|---|---|
| `Queue.ClaimConserves` | src/libtb/queue/__init__.py:143-153 | a claim moves items and makes or loses none: queue and all processing lists together hold what they held |
| `Queue.RequeueConserves` | src/libtb/queue/__init__.py:166-178 | neither does a requeue |
| `Queue.TrimTakes` | src/libtb/queue/__init__.py:159-165 | an acknowledgement takes the head of one list out of everything held, and nothing else |
| `Queue.ClaimThenRequeue` | src/libtb/queue/__init__.py:63-75 | requeuing what was just claimed into an empty list puts the queue back as it was, order included |
| `Queue.ClaimMore` | src/libtb/queue/__init__.py:274-292 | claiming the first item and then the rest is one claim of them all |
| `Queue.Valkey.Rpush` | src/libtb/queue/__init__.py:253-257 | a pushed item is the queue's last, and nothing else moves |
| `Queue.Valkey.MoveOut` | src/libtb/queue/__init__.py:284-292 | one item goes from the queue's head to the tail of the name's list, or nothing does when the queue is empty |
| `Queue.Valkey.MoveBack` | src/libtb/queue/__init__.py:63-75 | one item goes from the list's tail back to the queue's head |
| `Queue.Valkey.ClaimScript` | src/libtb/queue/__init__.py:143-153 | the loop of moves takes exactly the first n of the queue, in order, whoever holds the name |
| `Queue.Valkey.AckScript` | src/libtb/queue/__init__.py:159-165 | trims the list's head while the token holds the name, and otherwise changes nothing and says so |
| `Queue.Valkey.RequeueScript` | src/libtb/queue/__init__.py:166-178 | moves n items back in their order while the token holds the name, and otherwise changes nothing and says so |
| `Queue.Valkey.MoveBackMany` | src/libtb/queue/__init__.py:63-75 | the sweep's loop of moves is one requeue of that many |
| `Queue.Valkey.RenewScript` | src/libtb/queue/__init__.py:122-132 | the name is the token's afterwards unless another holds it, a lapsed one included |
| `Queue.Valkey.ReleaseScript` | src/libtb/queue/__init__.py:133-138 | a name is given up by its holder only |
| `Queue.ListQueue.constructor` | src/libtb/queue/__init__.py:206-215 | a queue starts without its name reserved |
| `Queue.ListQueue.Reserve` | src/libtb/queue/__init__.py:217-229 | the name is taken exactly when nobody holds it |
| `Queue.ListQueue.Renew` | src/libtb/queue/__init__.py:231-242 | answers whether the name is this process's, lapsed or not |
| `Queue.ListQueue.Release` | src/libtb/queue/__init__.py:244-251 | another's name is left alone |
| `Queue.ListQueue.Recover` | src/libtb/queue/__init__.py:265-272 | reads the processing list back whole and in order |
| `Queue.ListQueue.Claim` | src/libtb/queue/__init__.py:274-292 | what is returned is what moved: the first item with the rest |
| `Queue.ListQueue.Ack` | src/libtb/queue/__init__.py:294-309 | acknowledged items leave the list while the name is held, and a lost name is an error that changes nothing |
| `Queue.ListQueue.Requeue` | src/libtb/queue/__init__.py:311-335 | a batch goes back to the queue's head in its order, under the same fence |
| `Queue.RequeueList` | src/libtb/queue/__init__.py:63-75 | moves a whole list back when it is no longer than the limit allows |
| `Queue.SweptIsSafe` | src/libtb/queue/__init__.py:78-118 | a sweep conserves everything, leaves held names' lists alone and empties the others it was given |
| `Queue.RecoverOrphans` | src/libtb/queue/__init__.py:78-118 | the sweep's loop does exactly that, and counts the items moved and the lists: those nobody holds, only the ones with something in them when the consumers were named |
| `Queue.ListsCounted` | src/libtb/queue/__init__.py:78-118 | the lists counted are those of the names nobody holds, the empty ones only where the consumers were not named |
| `Delivery.StepKeeps` | src/libtb/consumer/__init__.py:275-301 | every undisturbed step keeps: a current holder's list is its batch in hand, empty when it claims, and nothing is lost |
| `Delivery.RunKeeps` | src/libtb/consumer/__init__.py:343-410 | so every run does, over any interleaving |
| `Delivery.AtLeastOnce` | src/libtb/queue/__init__.py:63-178 | in any run every pushed item is in the queue or one list, once, or was trimmed after a batch with it was handled to completion |
| `Delivery.OneAtATimeSuffices` | src/libtb/queue/__init__.py:265-272 | where a process takes no further step once another has begun under its name, every run is undisturbed, whatever crashes, lapses, is restarted or goes unanswered |
| `Delivery.NamingLosesNothing` | src/libtb/queue/__init__.py:20-30 | a way of naming processes loses nothing in any run it allows if and only if no two that may be alive at once share a name |
| `Delivery.SharedNameLoses` | src/libtb/queue/__init__.py:51-60 | two that share a name and may be alive at once lose an item in some run, claims and settlements kept as the weaker promise asks |
| `Delivery.UnheldClaimLoses` | src/libtb/queue/__init__.py:285-292 | for any two processes of one name, a run in which a claim without the name loses an item: claiming is not fenced |
| `Delivery.RetakenSettleLoses` | src/libtb/queue/__init__.py:127-130 | for any two, a run in which settling under a name the other held meanwhile loses one: renewing cannot tell |
| `Delivery.HeldAndFencedIsNotEnough` | src/libtb/consumer/__init__.py:361-397 | for any two, a run that claims only while holding and never settles under a retaken name, and still loses one |
| `Shipping.AllKept` | src/libtb/processor/__init__.py:219-222 | an answer without a retryable refusal is done with every document |
| `Shipping.DoneWasSettled` | src/libtb/processor/__init__.py:1157-1172 | whatever the requests are done with goes back to one that a host answered, with the document in it, and took it or did not refuse it in a way that may clear |
| `Shipping.SentWell` | src/libtb/processor/__init__.py:1144-1172 | a request that went well, passed on from host to host or not, is done with each of its documents exactly once |
| `Shipping.SentIll` | src/libtb/processor/__init__.py:1164-1176 | one that did not was refused something that may clear, went unanswered, or had no host; a single document is then not done with |
| `Shipping.RetryableMeans` | src/libtb/processor/__init__.py:212-229 | a refusal that may clear is one with a status other than 400, 409 and 413; a single document is refused for good with one of those |
| `Shipping.SentMeans` | src/libtb/processor/__init__.py:1149-1174 | a request that went well was answered for with each of its documents, one that did not failed or was asked to be sent again |
| `Shipping.DoneSince` | src/libtb/processor/__init__.py:1149-1172 | a document done with more often than before was in a request answered for since |
| `Shipping.TakenCount` | src/libtb/processor/__init__.py:1152-1172 | how many documents an answer took |
| `Shipping.Processor.constructor` | src/libtb/processor/__init__.py:231-233 | a processor starts with nothing buffered and nothing sent |
| `Shipping.Processor.SendAll` | src/libtb/processor/__init__.py:1149-1176 | host after host is asked until one answers; it is accepted only if that answer took each document or refused it with statuses missing or of 400, 409 and 413, and given up only when it did not or every host failed |
| `Shipping.Processor.FlushBulk` | src/libtb/processor/__init__.py:1123-1181 | nothing is sent while it may wait or there is nothing; otherwise nothing stays buffered, all of it was sent as one request from host to host, and the count is what the host that accepted it took |
| `Shipping.Processor.Weigh` | src/libtb/processor/__init__.py:1161-1172 | finds something to send again exactly when some document was refused with a status other than 400, 409 and 413 |
| `Shipping.Processor.SendOne` | src/libtb/processor/__init__.py:1213-1238 | a single document goes to host after host until one takes it or refuses it for good, and fails only when all did neither |
| `Shipping.Processor.ShipBite` | src/libtb/processor/__init__.py:1187-1238 | with no error a shipped document and everything buffered before it is waiting or done with, once; an error means something was sent in vain or there is no host |
| `Shipping.Processor.DiscardBulk` | src/libtb/processor/__init__.py:1183-1185 | nothing waits afterwards |
| `Shipping.Processor.HandleItem` | src/libtb/consumer/__init__.py:186-236 | an item that stops the batch leaves nothing buffered, unless the name was lost, and a batch is to be requeued only after something was sent in vain |
| `Shipping.Processor.HandleBatch` | src/libtb/consumer/__init__.py:178-247 | a count means each event's document was in a request sent since and answered, and that answer took it or refused it with no status but a missing one, 400, 409 or 413; a requeue that a request since failed or met another; however it ends, nothing is left buffered, but for a lost name |
| `Shipping.Processor.Run` | src/libtb/consumer/__init__.py:361-410 | no batch starts with another's documents buffered, every document of every acknowledged batch was answered for in that way, and a lost name ends the run with the buffer gone |
| `EndToEnd.HandleClaimed` | src/libtb/consumer/__init__.py:178-247 | handling claimed items to completion leaves the process's requests done with all their documents |
| `EndToEnd.DoneWithStill` | src/libtb/processor/__init__.py:1123-1181 | nothing sent later takes that back |
| `EndToEnd.HandledAt` | src/libtb/consumer/__init__.py:343-352 | what counts as handled was in hand at a step that completed its batch |
| `EndToEnd.NothingLost` | src/libtb/consumer/__init__.py:343-410 | in any run with one live process to a name, whose completed batches are handled so, every item pushed is still in the queue or a list, or is no event, or some process's request had its document and was answered: taken, or refused with no status but a missing one, 400, 409 or 413 |
| `SignIns.SortByStart` | src/libtb/radius/__init__.py:262 | the list rearranged by start, nothing made up and nothing dropped |
| `SignIns.FindClass` | src/libtb/radius/__init__.py:239-247 | the sign-in that goes by a Class, if any does |
| `SignIns.TrimClasses` | src/libtb/radius/__init__.py:271 | the latest sixteen Classes, in their order |
| `SignIns.Note` | src/libtb/radius/__init__.py:248-261 | the report changes or adds one sign-in, an account NPS authenticated is not renamed by a device, and no Class is in two |
| `SignIns.MergeNeighbours` | src/libtb/radius/__init__.py:263-275 | neighbours of one person become one under the Classes of both, no two neighbours alike remain, starts stay in order |
| `SignIns.LatestWellKept` | src/libtb/radius/__init__.py:276-277 | keeping only the latest keeps what every stored list keeps |
| `SignIns.Update` | src/libtb/radius/__init__.py:234-278 | after any report the list is sorted by start, at most sixteen of at most sixteen Classes, no Class twice, no two neighbours the same person; every Class keeps its person |
| `SignIns.FollowDrawn` | src/libtb/radius/__init__.py:263-278 | merging and trimming give no Class to another person |
| `SignIns.BegunIsLatest` | src/libtb/radius/__init__.py:857-860 | the last sign-in begun by a time in list order is the one with the latest start up to it |
| `SignIns.UpdateKeepsInForce` | src/libtb/radius/__init__.py:262-278 | from the first sign-in that is kept on, whoever is in force is whom all there were put in force; and while fewer than sixteen are kept none that began earlier is gone |
| `SignIns.UpdateKeepsNewest` | src/libtb/radius/__init__.py:252-278 | a sign-in under a new Class that began after all those listed is the last kept, under that Class, and in force from then on |
| `SignIns.KnownClassNoted` | src/libtb/radius/__init__.py:239-251 | a report under a known Class changes that sign-in alone: begun at its Access-Accept if that is earlier, and named as reported, but by no device in place of NPS |
| `SignIns.ClassNamed` | src/libtb/radius/__init__.py:245-256 | whoever is kept under the reported Class is whom the report says, or whom it may not replace |
| `SignIns.Lookup` | src/libtb/radius/__init__.py:843-860 | the sign-in in force is the one with the latest start at or before the lookup; before the first, that one only if it began with the session |
| `Radius.MergeEnd` | src/libtb/radius/__init__.py:194-218 | the script's weighing of two ends is the combination of real and inferred stops |
| `Radius.MergeName` | src/libtb/radius/__init__.py:219-227 | a name holds only under its Class, and one NPS authenticated is not replaced by a device's |
| `Radius.Merge` | src/libtb/radius/__init__.py:185-233 | one run of the script is the merge of a record and a report: ignored, anew or combined |
| `Radius.AgreeingStep` | src/libtb/radius/__init__.py:191-218 | a report that agrees with those before it only moves the last report on, the first back and the stop on |
| `Radius.AgreeingFold` | src/libtb/radius/__init__.py:191-233 | so any sequence of agreeing reports leaves the extremes of those reports |
| `Radius.OrderDoesNotMatter` | src/libtb/radius/__init__.py:191-233 | the same reports in any order, each any number of times, leave the same last report, first report and stop |
| `Radius.Sessions.constructor` | src/libtb/radius/__init__.py:598-622 | an address has no sessions at first |
| `Radius.Sessions.Prune` | src/libtb/radius/__init__.py:294-310 | dropped are sessions older than the cutoff, and of the rest only ones reported no later than every one kept |
| `Radius.Sessions.Record` | src/libtb/radius/__init__.py:171-332 | recording merges one session, keeps every sign-in list well kept, prunes, and refuses exactly reports from before the recorded session |
| `Radius.Sessions.Holder` | src/libtb/radius/__init__.py:778-818 | the session found covers the time, is not overruled and is above no other candidate, and there is none only if no session does; its name is its own or lent by the same device under the same Class |
| `Radius.Sessions.HolderOf` | src/libtb/radius/__init__.py:778-818 | the holder of the address is chosen among all its sessions and no others |
| `Radius.Sessions.IsCandidate` | src/libtb/radius/__init__.py:792-800 | covering and not overruled by a device reported since |
| `Radius.Sessions.NameFor` | src/libtb/radius/__init__.py:810-818 | a name is lent only when the session has none and the lender shares device and Class |
| `Radius.NotAboveTotal` | src/libtb/radius/__init__.py:806-807 | any two candidates compare |
| `Radius.NotAboveTransitive` | src/libtb/radius/__init__.py:806-807 | and the comparison is an order, so every worker picks alike |
| `Radius.StoppedStep` | src/libtb/radius/__init__.py:200-218 | a real stop stays whatever one report says, and its last report never goes back |
| `Radius.StaysStopped` | src/libtb/radius/__init__.py:171-310 | nor does recording any report at the address, pruning included |
| `Radius.StopStays` | src/libtb/radius/__init__.py:185-233 | over any reports in any order a stopped session stays stopped, at the latest real stop recorded, and covers no later lookup, until pruned or its id is reused |
| `Radius.StoppedNeverFound` | src/libtb/radius/__init__.py:778-818 | so of the address's sessions, read in any order, it is never the one found for a later lookup |
| `Holding.RefusedIfEarlier` | src/libtb/radius/__init__.py:191-192 | a report is refused only from over a minute before a known start, and begins a session anew only from over a minute after the last report |
| `Holding.BeginsAsReported` | src/libtb/radius/__init__.py:177-190 | a session begins as its first report says |
| `Holding.StartStep` | src/libtb/radius/__init__.py:193-195 | a known start never changes, an unknown one only gives way to a known one, and only back |
| `Holding.SilentKeeps` | src/libtb/radius/__init__.py:219-233 | a report that names nobody changes no name, one without a device no device |
| `Holding.NameStep` | src/libtb/radius/__init__.py:219-230 | whom a report names: anybody under another Class, and under the same whom NPS authenticated before a device |
| `Holding.StopStep` | src/libtb/radius/__init__.py:196-218 | how stops weigh: the latest real one stays; an inferred one gives way to a later report, is the earlier of two, and is moved later by none |
| `Holding.RoamStep` | src/libtb/radius/__init__.py:187-233 | a roam is no report with the address, and an address once reported is no roam's |
| `Holding.StartStays` | src/libtb/radius/__init__.py:141-148 | over any reports while an id lasts: a known start is kept, any start only moves back, the last report only on |
| `Holding.HeldStaysHeld` | src/libtb/radius/__init__.py:193-196 | a time a session held the address stays one while it is running, whatever is reported |
| `Holding.SignedStays` | src/libtb/radius/__init__.py:152-156 | over any reports a name NPS authenticated stays, whatever the device says under the same Class |
| `Holding.SignInsGoOn` | src/libtb/radius/__init__.py:234-236 | a session goes on with its sign-ins, and one begun anew starts with none |
| `Holding.FoundMayHold` | src/libtb/radius/__init__.py:820-823 | whoever is found held the address from a minute before its start to a grace after its last report and not beyond a stop; and somebody is found if a session that did not roam did |
| `Holding.LaterStartWins` | src/libtb/radius/__init__.py:783-807 | a session that gave the address around the time beats one that did not, and of those the later start wins, then the later report |
| `Holding.RoamYields` | src/libtb/radius/__init__.py:781-799 | a roamed session loses the address to another device given it since |
| `Holding.RoamFound` | src/libtb/radius/__init__.py:781-799 | and keeps it if no other was |
| `Holding.SameEverywhere` | src/libtb/radius/__init__.py:806-807 | two workers that read the same sessions in any order find one of the same start, last report and name |
| `Holding.NameAtIs` | src/libtb/radius/__init__.py:843-860 | the name and Classes in force at a time |
| `Holding.NameIsItsOwn` | src/libtb/radius/__init__.py:810-818 | the name given is that in force, or where there is none that of the same device under a Class of its own |
| `Holding.NamelessOnlyIf` | src/libtb/radius/__init__.py:810-818 | and nobody is named only if no such session has a name |
| `Names.JoinSplit` | src/libtb/index/__init__.py:93-95 | a name cut at its dots and joined again is itself |
| `Names.SplitJoin` | src/libtb/index/__init__.py:93-95 | and so are labels joined and cut |
| `Names.ReverseTwice` | src/libtb/index/__init__.py:93-95 | reversing labels twice gives the name back, so no two keys share a stored name |
| `Layout.Back32` | src/libtb/index/builder.py:195-201 | a number that fits its width is read back |
| `Layout.PartAt` | src/libtb/index/builder.py:205-214 | the i-th of parts written one after another stands at the sum of those before it |
| `Layout.SectionAt` | src/libtb/index/builder.py:241-258 | every section of a written file stands where the sizes before it put it |
| `Layout.Stands` | src/libtb/index/__init__.py:33-53 | a written file holds its image's header, tables, offsets, claim sets and names at the places of the layout |
| `Layout.SampleBytes` | src/libtb/index/builder.py:230-258 | a file with every kind of entry, byte for byte in the layout of the format |
| `Layout.OffsetAt` | src/libtb/index/__init__.py:217-219 | a part's offset is read back from the table of offsets |
| `Layout.LookupRow` | src/libtb/index/__init__.py:260-273 | the row of a name is the only one, so its claims are the key's |
| `Builder.RecordedAs` | src/libtb/index/builder.py:51-85 | a list nobody configured is one of low trust by itself; the operator's own and the ignorelist are local and of high trust |
| `Builder.KeyStable` | src/libtb/index/builder.py:141-173 | names interned later do not change the key of claims interned before |
| `Builder.KeyClaims` | src/libtb/index/builder.py:157-163 | a key is empty, and so gets no row, exactly when nobody claims anything |
| `Builder.InternClaims` | src/libtb/index/builder.py:153-161 | after interning, every name of the claims has one id, those from before keep theirs, and no other name came in |
| `Builder.InternAttr` | src/libtb/index/builder.py:164-166 | a claim set has one id, new only if it is |
| `Builder.InternKey` | src/libtb/index/builder.py:156-167 | one more key keeps all rows before it telling what they told, and enters nothing it does not need |
| `Builder.InternAll` | src/libtb/index/builder.py:141-173 | the rows tell every key someone claims something of, each once, and no other, in strict byte order; no claim set comes twice, and every name and claim set is some key's |
| `Builder.SortSorted` | src/libtb/index/builder.py:168 | rows of different names come out in strict byte order |
| `Builder.WriteStrings` | src/libtb/index/builder.py:176-178 | names are written exactly when each length fits two bytes |
| `Builder.WriteSource` | src/libtb/index/builder.py:181-188 | a source is written exactly when it fits: at most 255 publishers it derives from, a known trust level |
| `Builder.WriteSources` | src/libtb/index/builder.py:251-252 | and the table when each source does |
| `Builder.WriteClaim` | src/libtb/index/builder.py:198-200 | one source's claim as its id, a count and the category ids |
| `Builder.WriteAttr` | src/libtb/index/builder.py:195-200 | a claim set as its count and its claims |
| `Builder.WriteAttrs` | src/libtb/index/builder.py:191-202 | claim sets with where each starts, made exactly when the last start fits four bytes |
| `Builder.WriteOffsets` | src/libtb/index/builder.py:205-214 | where each name starts, made exactly when the blob stays within four bytes |
| `Builder.WriteRows` | src/libtb/index/builder.py:256-258 | the attribute index and the names in row order |
| `Builder.BuildImage` | src/libtb/index/builder.py:230-258 | of the image the entries are interned into, the file is made exactly when every number fits its width and every trust level is known |
| `Fitting.OneSet` | src/libtb/index/builder.py:156-166 | two keys share a claim set exactly when the same sources claim the same categories of both |
| `Fitting.SetLength` | src/libtb/index/builder.py:195-200 | a claim set takes two bytes, four for each source and two for each category it claims |
| `Fitting.NeedsAgree` | src/libtb/index/builder.py:141-173 | keys, claim sets, categories, sources and bytes counted on the entries are those of any image that tells them |
| `Fitting.WritableIffFit` | src/libtb/index/builder.py:217-276 | so whichever image a builder comes to, it can be written exactly when the entries fit |
| `Index.ReadString` | src/libtb/index/__init__.py:164-167 | a written string is read back, up to its end |
| `Index.ReadNames` | src/libtb/index/__init__.py:169-174 | and a list of them |
| `Index.ReadSource` | src/libtb/index/__init__.py:176-188 | a source's publisher, trust, locality and what it derives from come back as written, unless its trust level is unknown |
| `Index.ReadSources` | src/libtb/index/__init__.py:176-188 | the table comes back, or the first source with an unknown trust level is named |
| `Index.ReadClaim` | src/libtb/index/__init__.py:249-253 | reads a claim's ids off whatever bytes are there, or fails where they end |
| `Index.ReadClaims` | src/libtb/index/__init__.py:245-256 | so with a whole claim set, its ids replaced by the names they stand for, failing where one stands for none |
| `Index.ReadTables` | src/libtb/index/__init__.py:134-162 | opening finds every table and every place, or all before the sources when a trust level is unknown |
| `Index.WholeHolds` | src/libtb/index/__init__.py:33-53 | in a written file every offset leads to the claim set, name or id it is of |
| `Reading.ClaimBack` | src/libtb/index/__init__.py:249-253 | a written claim is read back |
| `Reading.SetBack` | src/libtb/index/__init__.py:245-256 | a written claim set gives its (source, category) pairs, in the file's order |
| `Reading.DecodeBack` | src/libtb/index/__init__.py:239-258 | with the tables and bytes of one file, a number leads to its claim set |
| `Reading.NameBack` | src/libtb/index/__init__.py:217-219 | and a row to its stored name |
| `Reading.SearchEnds` | src/libtb/index/__init__.py:221-230 | binary search over sorted names ends at the first that is not below |
| `Reading.RowFound` | src/libtb/index/__init__.py:221-233 | so it finds the row of a stored name, and none exactly when no row has it |
| `Reading.ClaimsForBack` | src/libtb/index/__init__.py:260-273 | a key's claims are those the file says of it |
| `Index.HeardBack` | src/libtb/index/__init__.py:302-333 | with the tables and bytes of one file, every lookup answers what that file says |
| `Index.DotsOfLabels` | src/libtb/index/__init__.py:324 | counting dots and one more counts labels |
| `Index.Keep` | src/libtb/index/__init__.py:330-332 | of a key nobody owns only local claims are kept |
| `Index.ProbesFor` | src/libtb/index/__init__.py:320-326 | the keys asked for, and which are the owner's, in order from the most specific |
| `Index.DomainIndex.constructor` | src/libtb/index/__init__.py:119-123 | an index is not open before a file is |
| `Index.DomainIndex.Close` | src/libtb/index/__init__.py:190-197 | a closed index has no file and remembers no key; what was decoded stays |
| `Index.DomainIndex.Open` | src/libtb/index/__init__.py:125-162 | opens exactly this format's files with known trust levels, and otherwise says why; one with an unknown level stays half open, with the new header and categories and all else as before, and one of another format is closed |
| `Index.DomainIndex.ReloadIfChanged` | src/libtb/index/__init__.py:199-213 | callable in any state: does nothing while the same file is there, a failed one included, and otherwise comes to what opening the new one comes to, whatever was decoded before |
| `Index.DomainIndex.DomainAt` | src/libtb/index/__init__.py:217-219 | the bytes between two offsets, or an exception where the offsets lie past the end |
| `Index.DomainIndex.Find` | src/libtb/index/__init__.py:221-233 | the loop is the binary search over whatever is open |
| `Index.DomainIndex.DecodeAttr` | src/libtb/index/__init__.py:239-258 | what is decoded or remembered is what decoding gives, or was decoded before these bytes were opened |
| `Index.DomainIndex.RowClaims` | src/libtb/index/__init__.py:268-269 | a row's claims are those of the claim set its number leads to |
| `Index.DomainIndex.ClaimsFor` | src/libtb/index/__init__.py:260-273 | remembered, forgotten or looked up, a key's claims are what looking it up would give |
| `Index.DomainIndex.Remember` | src/libtb/index/__init__.py:270-273 | the memo never outgrows its limit, gains this key and changes no other |
| `Index.DomainIndex.Entries` | src/libtb/index/__init__.py:289-300 | of a whole file, lists every row's key and claims in the file's order |
| `Index.DomainIndex.Match` | src/libtb/index/__init__.py:302-333 | over any lookups, clears and reloads, failed ones too: the claims of the host, its alias and the subtree keys, in order, as the unmemoised definition over what is open gives |
| `Reopening.OpenedTells` | src/libtb/index/__init__.py:125-162 | once the next file is open every lookup answers what it says, whatever was open and decoded before |
| `Reopening.HalfOpenHears` | src/libtb/index/__init__.py:176-188 | half open after a file of the same lengths, the rows of the new one answer with the sources of the old |
| `Reopening.HalfOpenMisleads` | src/libtb/processor/__init__.py:263-271 | for every file with an unknown trust level and a row of a key there is one before it after which that key is not answered as the file says |
| `Reopening.ExampleMisleads` | src/libtb/index/__init__.py:183-184 | such a file |
| `Reopening.RefusedRaises` | src/libtb/index/__init__.py:221-233 | after a file of another format every lookup of a host raises if and only if the header read last told of rows, and otherwise answers nothing in silence |
| `Reopening.OffsetsPastHeader` | src/libtb/index/__init__.py:135-143 | whatever was opened since, the offsets a reader goes by point past the header, as that needs |
| `Reopening.ReopeningTells` | src/libtb/index/__init__.py:199-213 | lookups after reopening answer what the new file says, whatever was open before, if and only if its trust levels are known or it has no rows |
| `RoundTrip.ExpandKey` | src/libtb/index/__init__.py:245-256 | decoding the key of some claims gives exactly those claims, with sources as recorded |
| `RoundTrip.ExpandOnce` | src/libtb/index/__init__.py:245-256 | and none twice |
| `RoundTrip.ReadsBack` | src/libtb/index/builder.py:217-276 | for every key, stored or not, the file says exactly what the lists said |
| `RoundTrip.ReadsOnce` | src/libtb/index/builder.py:156-161 | and none of it twice |
| `RoundTrip.ListsOne` | src/libtb/index/__init__.py:289-300 | what is listed of a row is a claimed key with that key's claims |
| `RoundTrip.ListsKey` | src/libtb/index/__init__.py:289-300 | every key someone claims something of is listed |
| `RoundTrip.ListsOnce` | src/libtb/index/__init__.py:289-300 | no key is listed twice |
| `RoundTrip.Build` | src/libtb/index/builder.py:217-276 | a file is built if and only if the entries fit, and it is the layout of an image that tells them and nothing else |
| `RoundTrip.OpenAsk` | src/libtb/index/__init__.py:260-273 | opening a built file and asking for a key gives what the file says of it |
| `RoundTrip.BuildOpenAsk` | src/libtb/index/__init__.py:260-273 | build, open and ask, all in one: succeeds if and only if the entries fit, and then gives exactly the key's pairs, each once |
| `Psl.PublicSuffix` | src/libtb/psl/__init__.py:135-172 | both walks together find the suffix the list's algorithm defines: an exception first, else the rule of most labels, else the last label |
| `Psl.Cut` | src/libtb/psl/__init__.py:154-172 | where the suffix starts is the place the algorithm's definition names |
| `Psl.RuleSuffix` | src/libtb/psl/__init__.py:154-172 | the suffix under a rule is the rule, unless a longer one or an exception prevails |
| `Psl.WildcardSuffix` | src/libtb/psl/__init__.py:154-172 | under a rule for every child of a name it is the child |
| `Psl.ExceptionSuffix` | src/libtb/psl/__init__.py:154-172 | an exception leaves what stands right of its first label |
| `Psl.UnlistedSuffix` | src/libtb/psl/__init__.py:154-172 | under no rule it is the last label |
| `Psl.Registrable` | src/libtb/psl/__init__.py:189-205 | a registrable domain is a suffix of the host |
| `Psl.RegistrableIs` | src/libtb/psl/__init__.py:189-205 | what is registered is the suffix and one label more, and without a list the last two labels |
| `Psl.RegistrableTwice` | src/libtb/psl/__init__.py:189-205 | and its own registrable domain, with the list or without it |
| `Psl.BoundaryBelow` | src/libtb/evidence/__init__.py:266-273 | the boundary of a host strictly below a public suffix lies strictly below it too |
| `Ownership.MatchedAsked` | src/libtb/index/__init__.py:328-333 | a claim counts exactly when some key asked for makes it and the key is the owner's or the source local |
| `Ownership.HeardExactly` | src/libtb/index/__init__.py:302-333 | a claim is heard for a host if and only if it is of its own name, or of its other spelling or a covering name, of no fewer labels than the name registered has unless the list is local |
| `Ownership.AliasLabels` | src/libtb/index/__init__.py:103-109 | the alias is the host with a www label more or less |
| `Ownership.SuffixSilent` | src/libtb/index/__init__.py:302-333 | a non-local entry for a public suffix, exact or subtree, says nothing of a host strictly below it whose labels do not spell its subtree key |
| `Ownership.SpelledSpeaks` | src/libtb/index/__init__.py:323-326 | and is heard, every claim of it, where they do |
| `Evidence.MostSpecific` | src/libtb/evidence/__init__.py:169-181 | of the branches with a bar of their own the most specific decides |
| `Evidence.NeedsMostSpecific` | src/libtb/evidence/__init__.py:169-181 | a statement needs as many as the most specific branch with a bar of its own asks, and as many as usual where there is none or the taxonomy does not know it |
| `Evidence.SpelledAlike` | src/libtb/evidence/__init__.py:303-310 | a category goes by its letters in lower case, whatever blanks stand around it |
| `Evidence.SaysWhatIsListed` | src/libtb/evidence/__init__.py:303-310 | and says what the taxonomy has under that spelling, only its own name where it has nothing |
| `Evidence.CombinationIs` | src/libtb/evidence/__init__.py:290-300 | every choice tried is of so many different sources |
| `Evidence.CombinationOf` | src/libtb/evidence/__init__.py:290-300 | and every set of so many is tried |
| `Evidence.Corroborated` | src/libtb/evidence/__init__.py:290-300 | true exactly when so many of the sources are pairwise independent |
| `Evidence.GatherOne` | src/libtb/evidence/__init__.py:371-384 | one claim more leaves the statements a high trust source makes and the medium ones behind each |
| `Evidence.Support` | src/libtb/evidence/__init__.py:387-391 | a statement is supported exactly when a high trust claim makes it or enough independent medium ones do |
| `Evidence.Judge` | src/libtb/evidence/__init__.py:392-407 | from what is supported, the verdict |
| `Evidence.Resolve` | src/libtb/evidence/__init__.py:343-407 | asserts exactly what is claimed, not cancelled, allowed by the mark and supported in every statement; the verdict depends on the set of claims, so neither order nor repetition matters |
| `Evidence.ListsApart` | src/libtb/evidence/__init__.py:397-407 | asserted, candidate and suppressed share nothing and are all that was claimed but the mark; only risk is asserted of an incidental host |
| `Evidence.CopyIsNoSecond` | src/libtb/evidence/__init__.py:276-300 | a category with a statement only a list and its copy make, at a bar of two or more, is held back |
| `Evidence.TwoAreEnough` | src/libtb/evidence/__init__.py:276-300 | two lists neither of which copies the other assert it, and so does one of high trust |
| `Evidence.LowIsNotEnough` | src/libtb/evidence/__init__.py:371-391 | sources of low trust alone assert nothing |
| `Evidence.CorrectionTakes` | src/libtb/evidence/__init__.py:330-340 | a correction takes away every category that says all the corrected one says, and no other |
| `Evidence.IncidentalLeavesRisk` | src/libtb/evidence/__init__.py:392-401 | a host marked incidental keeps of what it would be asserted only its risks; the rest is held back |
| `Evidence.AddPositive` | src/libtb/evidence/__init__.py:366-391 | a positive claim takes support from no statement and lends it only to those it makes |
| `Evidence.AddingMarks` | src/libtb/evidence/__init__.py:387-396 | when a claim marks the host incidental, told from the claims before it |
| `Evidence.AddingKeeps` | src/libtb/evidence/__init__.py:343-407 | it un-asserts nothing if and only if it would not mark the host incidental (nobody navigating, the mark claimed before or by it, each of its statements supported already or made by the claim with backing enough) or only risk is asserted |
| `Evidence.AddingElsewhere` | src/libtb/evidence/__init__.py:394-401 | saying nothing the mark says is enough |
| `Evidence.OtherSpellingUndoes` | src/libtb/evidence/__init__.py:303-310 | the mark in another spelling un-asserts what was asserted |
| `Evidence.Spelled` | src/libtb/evidence/__init__.py:303-310 | and such a spelling exists |
| `Lookups.QualifiedIsBacked` | src/libtb/evidence/resolvers.py:243-259 | a vote is asked for only where an uncorrected medium trust claim says all it says |
| `Lookups.VoteStep` | src/libtb/evidence/resolvers.py:412-415 | one vote un-asserts and un-suppresses nothing, and newly asserts only what shares a statement with it |
| `Lookups.ProvidersVote` | src/libtb/evidence/resolvers.py:90-105 | with the taxonomy's rows for what they vote, none of the resolvers there are votes for anything the mark says |
| `Lookups.BackedByList` | src/libtb/evidence/resolvers.py:243-259 | what backs a vote on claims with votes among them goes back to a list |
| `Lookups.Corroborate` | src/libtb/evidence/resolvers.py:395-416 | each resolver is asked exactly where its vote could settle something on the claims and the verdict as the votes before it left them; the votes counted are those of the ones that answered with a block, confirmed; votes only promote, and anything new shares a statement with a vote backed by a list claim from before any vote |
| `Lookups.VoteOfTheMarkUndoes` | src/libtb/evidence/resolvers.py:243-259 | a resolver other than those there are, whose vote said what the mark says, would un-assert what was asserted |
| `Lookups.MergeChain` | src/libtb/processor/__init__.py:731-796 | every context of the name is kept, a chain's category is suppressed, held back or added by the name's corrections and mark, and the three lists stay apart |
| `Lookups.CategoriseLookup` | src/libtb/processor/__init__.py:731-796 | with votes and chain merged: the name's contexts kept, each category of the chain suppressed, held back or added by the name's corrections and mark, lists apart, none makes all a correction says, only risk on an incidental name |
| `Resolvers.Checker.constructor` | src/libtb/evidence/resolvers.py:275-292 | nothing is remembered at first |
| `Resolvers.Checker.Cached` | src/libtb/evidence/resolvers.py:294-302 | an entry that has not expired is answered and everything stays; one that has expired is forgotten, and nothing else is |
| `Resolvers.Checker.Remember` | src/libtb/evidence/resolvers.py:304-312 | a settled status is remembered for a lifetime as the latest, the others stay as they were in their order, and one too many means the oldest goes |
| `Resolvers.Checker.NoteFailure` | src/libtb/evidence/resolvers.py:321-330 | one failure more; from the third in a row the address is left alone, each time twice as long up to the limit; nothing of any other address changes |
| `Resolvers.Checker.NoteSuccess` | src/libtb/evidence/resolvers.py:317-319 | an answer ends the address's counts, and no other's |
| `Resolvers.Counts` | src/libtb/evidence/resolvers.py:314-330 | over any attempts the counts are those of failures since the last answer, and from the third on the address rests from the last for the back-off, twice that with each one more, at most a quarter of an hour |
| `Resolvers.RestsUntil` | src/libtb/evidence/resolvers.py:314-330 | after three failures in a row it is left alone until then, and no longer |
| `Resolvers.NeverRests` | src/libtb/evidence/resolvers.py:314-330 | an address that never failed three times in a row never rests |
| `Resolvers.Checker.Ask` | src/libtb/evidence/resolvers.py:332-357 | a resting address is not asked, nor any once the lookup's time is spent, and neither counts as a failure; otherwise it is asked once, and the reply is the result and is counted for or against it |
| `Resolvers.Checker.Found` | src/libtb/evidence/resolvers.py:359-381 | a settled status follows from what the provider's resolver answered to this query, and for a block from what the unfiltered one answered after it; an unsettled one from the last reply, a resting address or spent time |
| `Resolvers.Checker.StatusOf` | src/libtb/evidence/resolvers.py:383-393 | over any calls, a settled status rests on answers that came, in this call or in one noted less than a lifetime before; what is remembered is not asked again, and nothing unsettled is remembered |
| `Resolvers.BlockedMeans` | src/libtb/evidence/resolvers.py:80-103 | what each resolver's block is: its address, its answer and its code, and that the one beside it answers with none of the three codes |
| `Resolvers.CensoredMeans` | src/libtb/evidence/resolvers.py:376-380 | a name the unfiltered resolver blocks too is censored |
| `Resolvers.ClearMeans` | src/libtb/evidence/resolvers.py:365-372 | and what is no block: not of the provider's shape |
| `Independence.BitOfOr` | src/libtb/audit/independence.py:48-59 | a mask of two has the bits of either |
| `Independence.MaskOf` | src/libtb/audit/independence.py:51-56 | an entry's mask has exactly the bits of the sources that claim it |
| `Independence.SpellingsAreOne` | src/libtb/audit/independence.py:32-38 | the four spellings of a name, with *. and with www. or without, are one name |
| `Independence.Gather` | src/libtb/audit/independence.py:49-59 | a name's mask has exactly the bits of the sources that hold it under any spelling |
| `Independence.CountMasks` | src/libtb/audit/independence.py:64 | how many names have each mask |
| `Independence.BothMore` | src/libtb/audit/independence.py:64-69 | one mask more adds its names to a pair exactly when it has both bits |
| `Independence.Measure` | src/libtb/audit/independence.py:41-72 | counting once per mask, each size is the number of names the source holds and each shared count the number both hold |
| `Independence.ListingAttributed` | src/libtb/audit/independence.py:48-56 | every claim an index lists is of a local source or of one of its own, each with a bit |
| `Independence.BuiltNames` | src/libtb/index/builder.py:151-160 | in a built file each source has a name of its own |
| `Independence.MeasureIndex` | src/libtb/audit/independence.py:41-72 | so the report over an index open on such a file counts right |
| `Patterns.Common` | src/libtb/retention/__init__.py:214-238 | where the recursion says yes it builds a name both patterns match |
| `Patterns.Overlapping` | src/libtb/retention/__init__.py:214-238 | where a name matches both, the recursion says yes |
| `Patterns.OverlapExact` | src/libtb/retention/__init__.py:214-238 | so it is true exactly when some name matches both |
| `Patterns.Matcher.Match` | src/libtb/retention/__init__.py:220-237 | with its memo the recursion ends and answers as without |
| `Patterns.PatternsOverlap` | src/libtb/retention/__init__.py:214-238 | decides whether some name matches both patterns |
| `Retention.EarliestIsLeast` | src/libtb/retention/__init__.py:204-211 | the deletion age of several transitions is the least of them |
| `Retention.PeriodOfPolicy` | src/libtb/retention/__init__.py:135-159 | the policy as written deletes after exactly its days |
| `Retention.PeriodDays` | src/libtb/retention/__init__.py:193-211 | reading a policy back gives its period |
| `Retention.SummaryTells` | src/libtb/retention/__init__.py:162-184 | two policies as written summarise alike exactly when they say the same |
| `Retention.SamePeriod` | src/libtb/retention/__init__.py:162-184 | no difference that matters is lost: policies with the same summary, by whatever hand, delete at the same age |
| `Retention.ConvergeOk` | src/libtb/retention/__init__.py:613-641 | moving indices to the latest version, failures and all, deletes none sooner than it was to be |
| `Retention.SettleOk` | src/libtb/retention/__init__.py:555-610 | nor does taking the policy off them |
| `Retention.TurnOffOk` | src/libtb/retention/__init__.py:555-610 | nor turning retention off, whatever fails |
| `Retention.WriteOk` | src/libtb/retention/__init__.py:470-545 | nor writing the policy |
| `Retention.StartOk` | src/libtb/retention/__init__.py:416-545 | one start without confirmation or attaching deletes nothing sooner and manages nothing it did not |
| `Retention.NeverSooner` | src/libtb/retention/__init__.py:416-545 | from a cluster without the policy, over any starts, failures and new indices, no index's deletion age ever shortens and none from before is put under it |
| `Retention.PolicyAfterStart` | src/libtb/retention/__init__.py:470-545 | a start leaves the days asked for, unless they are shorter than those in force and not confirmed |
| `Retention.CaughtUp` | src/libtb/retention/__init__.py:613-641 | in any run from a cluster without the policy, a start that leaves a policy in force leaves every index that was listed under it and that ISM did not refuse to be deleted when it says |
| `Retention.OthersUntouched` | src/libtb/retention/__init__.py:613-641 | what another policy manages, ISM does not list yet or refuses to change is as it was, and goes on by its own copy |
| `Retention.OrphansKept` | src/libtb/retention/__init__.py:481-493 | indices running a copy of a policy deleted since are left alone until their period is confirmed |
| `Retention.ConfirmedIsWritten` | src/libtb/retention/__init__.py:485-493 | a confirmed period is written however short |
| `Retention.NothingRewritten` | src/libtb/retention/__init__.py:471-476 | a policy that is as it should be is not written again, and no index that has caught up is moved |
| `Retention.WouldDeleteIs` | src/libtb/retention/__init__.py:477-480 | what a period is said to delete at once are the listed indices old enough for it and not for the one in force |
| `Retention.NewIndices` | src/libtb/retention/__init__.py:452-470 | while another policy can match a daily index ours has no template; otherwise it matches every daily index of this millennium |
| `Retention.DailyIs` | src/libtb/retention/__init__.py:127-132 | a daily index is the prefix, a year of four digits, a month and a day of two |
| `Retention.Attaches` | src/libtb/retention/__init__.py:644-682 | asked to, a start takes in exactly the daily indices nothing manages yet, but those ISM refuses |
| `Retention.TurnsOff` | src/libtb/retention/__init__.py:555-610 | when ISM refuses nothing, turning off leaves no index under the policy, listed or not, and no policy |
| `Retention.TurnOffWaits` | src/libtb/retention/__init__.py:555-610 | when it refuses one, the policy stays for it, without a template |
| `Retention.NothingToTurnOff` | src/libtb/retention/__init__.py:555-565 | turning off what is not on changes nothing |
| `Librarian.Ism.PutPolicy` | src/libtb/retention/__init__.py:320-335 | a written policy is the cluster's next version |
| `Librarian.Ism.Each` | src/libtb/retention/__init__.py:341-362 | in batches, exactly the names that do not fail are changed |
| `Librarian.Ism.FindConflicts` | src/libtb/retention/__init__.py:445-460 | the other policies with a template that overlaps ours, all of them and no other |
| `Librarian.Ism.HasConflict` | src/libtb/retention/__init__.py:452-457 | true exactly when some pattern of the templates meets ours |
| `Librarian.Ism.Converge` | src/libtb/retention/__init__.py:613-641 | the loop of moves is the move of those that lag |
| `Librarian.Ism.TurnOff` | src/libtb/retention/__init__.py:555-610 | the rounds of detaching come to the cluster turned off |
| `Librarian.Ism.Write` | src/libtb/retention/__init__.py:470-545 | writes the policy wanted, or leaves it where days would shorten unconfirmed |
| `Librarian.Ism.Survey` | src/libtb/retention/__init__.py:644-682 | attaches indices only when asked to |
| `Librarian.Ism.Reconcile` | src/libtb/retention/__init__.py:416-545 | one start, step by step, comes to the cluster the proofs are about |
| `Transport.ConcatBlocks` | src/libtb/index/transport.py:53-61 | the blocks a file is cut into make it again |
| `Transport.StepKeeps` | src/libtb/index/transport.py:41-79 | no step, crashes included, takes away a chunk the manifest names or leaves a worker part of a file |
| `Transport.AlwaysWhole` | src/libtb/index/transport.py:102-151 | in every run every chunk the manifest names is there, and a worker's file is one whole published file |
| `Transport.Chase` | src/libtb/index/transport.py:102-151 | from its look at the manifest on, a fetch that is sure is on its way to that generation over chunks that stay as they are, as long as no publish completes |
| `Transport.FetchEnds` | src/libtb/index/transport.py:111-115 | in any world of any run: every such fetch ends there if and only if the marker names the generation beside its file, or names another while the chunks make up the file and nothing uploads other bytes over them |
| `Transport.SureSettles` | src/libtb/index/transport.py:102-151 | a fetch that is sure ends with the manifest's file and its marker |
| `Transport.UnsureFails` | src/libtb/index/transport.py:125-138 | one that is not has a way to end without |
| `Transport.FreshKeeps` | src/libtb/index/transport.py:71-77 | with generations that only rise, a marker names its file's generation or one left behind |
| `Transport.FreshFetchEnds` | src/libtb/index/transport.py:102-151 | so in any such run a fetch during which no publish completes ends on the manifest's generation |
| `Transport.ReusedMisleads` | src/libtb/index/transport.py:114-115 | a generation used for another file leaves a worker with the first |
| `Transport.OlderAgainMisleads` | src/libtb/index/transport.py:146-149 | an older one published again leaves one that died before its marker with the newer |
| `Transport.AbandonedSpoils` | src/libtb/index/transport.py:50-61 | a publish under the manifest's number that died after a chunk leaves a worker without a marker with the wrong checksum |
| `Transport.Valkey.Publish` | src/libtb/index/transport.py:41-79 | exactly the file's chunks, then the manifest, then the deletions of the generation before are sent, in that order; afterwards the manifest is the file's, its chunks hold it, the generation before is gone and no other chunk changed |
| `Transport.Published` | src/libtb/index/transport.py:41-79 | what those commands come to in any Valkey |
| `Transport.PublishSteps` | src/libtb/index/transport.py:41-79 | each command of a publish is one step of the machine and does to the world what it does to Valkey |
| `Transport.PublishKeeps` | src/libtb/index/transport.py:44-48 | so after each of them, the last or not, every chunk the manifest names is there |
| `Transport.Copy.FetchIfStale` | src/libtb/index/transport.py:102-151 | a fetch brings the manifest's file or leaves the copy alone, and succeeds on a whole generation exactly when the marker names another |
| `Schedule.TileFrom` | console/backend/tbconsole/analysis/engine.py:388-391 | whole windows from a moment on, as many as have ended |
| `Schedule.LastFew` | console/backend/tbconsole/analysis/engine.py:392-393 | at most twelve are kept, the latest, still end to end |
| `Schedule.PlanWindows` | console/backend/tbconsole/analysis/engine.py:367-400 | the windows tile from where the rule got to, or from the reach of catch-up, less than one window is left over, and what lies between is the span missed |
| `Schedule.PlanMeans` | console/backend/tbconsole/analysis/engine.py:367-400 | each moment since the mark is in one window, in the span missed or too late for a whole one; at most twelve windows, and missed only what is over six hours back or before twelve of them |
| `Schedule.TilesMeet` | console/backend/tbconsole/analysis/engine.py:370-374 | no moment between the first and the last window is in none, nor in two |
| `Schedule.Rule.ClaimRun` | console/backend/tbconsole/analysis/engine.py:696-709 | the lease is taken exactly when none runs |
| `Schedule.Rule.ReleaseRun` | console/backend/tbconsole/analysis/engine.py:712-721 | another run's lease is left alone |
| `Schedule.Rule.Record` | console/backend/tbconsole/analysis/engine.py:497-531 | a run whose lease is no longer the rule's writes nothing, and the mark never goes back |
| `Schedule.MarkIsLast` | console/backend/tbconsole/analysis/engine.py:515-523 | over windows in order the mark ends at the last |
| `Schedule.RecordedMark` | console/backend/tbconsole/analysis/engine.py:497-531 | the mark is left at the latest window evaluated, at the end where none was to be, or where it was, and never goes back; a lost lease changes nothing |
| `Schedule.TurnsKeep` | console/backend/tbconsole/analysis/engine.py:696-721 | every step keeps: the holder of the lease made the last claim, and every other run's lease has ended |
| `Schedule.Serial` | console/backend/tbconsole/analysis/engine.py:497-508 | a run records only if no other claimed the rule between its claim and its record |
| `Schedule.WriteCovers` | console/backend/tbconsole/analysis/engine.py:515-523 | what a run writes leaves no moment between the old mark and the new unaccounted for |
| `Schedule.AlwaysCovered` | console/backend/tbconsole/analysis/engine.py:461-532 | over any runs every moment from the first mark up to the mark was in a recorded window, in a reported span, or in one whose note an error replaced |
| `Schedule.RunAccounts` | console/backend/tbconsole/analysis/engine.py:546-551 | a run accounts for every moment from the old mark up to the new one if and only if it left nothing out or met no error |
| `Schedule.SilentExactly` | console/backend/tbconsole/analysis/engine.py:461-551 | while the window is never made longer, what is neither looked at nor told of between the marks is exactly what the lost notes were about; so nothing is if and only if no note was lost |
| `Schedule.NoteLost` | console/backend/tbconsole/analysis/engine.py:470-481 | a run of three hour windows, seven hours behind, that leaves an hour out in silence |
| `Schedule.LongerLooksBack` | console/backend/tbconsole/api/rules.py:132 | and a window made a day long that looks at it after all |
| `Schedule.ClockBackOverlaps` | console/backend/tbconsole/analysis/engine.py:696-709 | with a clock that goes back a run can record although two others claimed the rule since |

## Left out

- Delivery: the owner key's time to live is modelled as lapsing at any moment, and consumers that never reserved a name (the unfenced branches of `ack` and `requeue`) are not.
- The consumer's statistics, logging, rests between batches, and the accounting list it drains at most once.
- Shipping: only a processor in strict delivery, as the consumer makes it; the settings that put documents back in the buffer for other callers are not. A host that fails part way through a bulk request is a host that did not answer.
- Radius: the record of a device's last address and the inferring of moves from it, the cache of addresses nobody holds, parsing of names and attributes, and the expiry of a whole address; text order in `holder` is by code point.
- Radius.StopStays: an id reused with a start known to be later is a new session, so it is excluded, as is a pruned one.
- Retention: dry runs, hand-edited policies of several states, a policy write the cluster refuses half way, and creation dates from anywhere but the index listing.
- The index's `lookup`, which lists what the lists say with no weighing.
- Index.DomainIndex.Open: a file that starts with this format's eight bytes is taken to be whole and in its layout, whatever trust levels it gives; truncated or hand-made ones are not modelled. Decoding UTF-8 is not either: two names are the same text when they are the same bytes. An index whose very first opening fails is not kept, so nothing is asked of it.
- Index.DomainIndex.Entries: listing is modelled of a whole file only, which is what the reports open.
- RoundTrip.Build: the temporary file, its rename and the file modes; a failed build returns an error and writes nothing.
- Psl: reading and refreshing the list, punycode spellings and the stripping and folding of hosts; hosts are taken as they come out of that.
- Evidence.Resolve: the verdict's lists are sets, their sorting is presentation; lower case and blanks are those of ASCII; reading settings and switched-off categories is left out.
- Lookups.Corroborate: the waits of an audit's throttle and the reading of DNS messages are not modelled, nor leaving a provider out by the settings, which is a shorter list of them. Providers are any whose vote says nothing the mark says, as those there are do.
- EndToEnd.NothingLost: that each completed batch was handled as `EndToEnd.HandleClaimed` handles it is a condition on the run; the loop of the consumer that calls one and takes the steps of the other is not a method here.
- Lookups.CategoriseLookup: index mode only; the Valkey and compare modes, and the facets of a category, are not.
- Independence: the categories each source claims, and the report made of the counts.
- Transport: one worker process at a time fetches into one path, and the checksum is taken as collision-free; the librarian's own copy and marker are not a worker's.
- Schedule.AlwaysCovered: rules without a schedule; time zones, active hours and the tail of a period are not modelled, nor are runs started by hand, which read the rule before they claim it. Window lengths are at least a microsecond.
- Schedule.PlanWindows: likewise for rules that are always active.
- Findings, their deduplication and reminders; retagging, sieving, privacy and the uncategorised report; everything the console shows.
