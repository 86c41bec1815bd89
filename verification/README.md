# Tengine::Mq::Suite delivery tracking, in Dafny

This project models the delivery-tracking engine of `Tengine::Mq::Suite`
(`lib/tengine/mq/suite.rb`), the object through which Tengine publishes events
to an AMQP broker and makes sure that each of them is eventually confirmed.

Each call to `fire` creates one bookkeeping record `{tag, sender, event, opts,
retry, block}`. That record then moves between four places:

- the set of pending records;
- the firing queue;
- the list of records published and waiting for a broker ack, each stamped
  with a delivery tag;
- the table of records waiting for a retry.

The code that moves records is:

- `fire_internal`, `published` and `publish_failed`;
- the broker's acks and nacks (`consume_basic_ack` / `consume_basic_nack`);
- `revoke_retry_timers` when the channel is interrupted;
- `reinvoke_retry_timers` when the channel recovers.

Around the engine sit three more pieces:

- the publisher-confirm handshake (`@state`, `@tag`);
- the hook registry that AMQP callbacks are routed through, with its
  exceptions container;
- two helpers, `Hash#compact` and `Enumerable#each_next_tick`.

Layout:

- `basics.dfy`: `Option`, and the array operations the engine uses
  (`reject!`, deleting several elements, `reverse_each`).
- `table.dfy`: an insertion-ordered Ruby Hash (`@retrying_events`).
- `hash_ext.dfy`: `Hash#compact` and `merge … compact`.
- `reactor.dfy`: the EventMachine next-tick queue, and what `each_next_tick`
  schedules.
- `delivery.dfy`: the record, the sender options, the handshake states and
  the value-level decisions:
  - the tag partition of an ack or nack;
  - the stop decision;
  - the retry ceiling.
- `hooks.dfy`: hook names, the registry, the default hooks, dispatch order,
  collecting failures, and what is re-raised.
- `bookkeeping.dfy`: the `Engine` snapshot of every field the suite updates,
  its invariant `Sound`, one function per operation giving the state it
  leads to, and the properties of those functions.
- `suite.dfy`: the class `MqSuite.Suite`, whose fields are the Ruby instance
  variables. Each method updates them in place and is proved to move
  `View()` exactly as the matching Bookkeeping function says, while keeping
  `Valid()`. Loops over Ruby arrays are `while` loops with invariants.

Records are named by ids. The Ruby Struct is one mutable object shared by
every collection and every closure, so its fields live once, in `records`,
and the collections hold ids.

Things outside the engine become inputs or counters:

- The broker becomes parameters: whether a publish raised, the delivery tag
  and `multiple` flag of an ack, and what the broker advertises.
- The clock becomes an integer `now`.
- `EM.next_tick` work waits in `reactor`, and `EM.add_timer` callbacks wait
  in `timers`.
- `stop` requests are counted in `stopRequests`.
- Completion blocks that are called are logged in `completions`.

## Model

| member | source | states |
|---|---|---|
| Basics.Without | lib/tengine/mq/suite.rb:961 | `reject!` keeps every element that differs from x and nothing equal to x; the array is unchanged when x is absent |
| Basics.WithoutKeepsOrder | lib/tengine/mq/suite.rb:961 | `reject!` keeps the survivors in their original order: any two of them appear in the array in the same order |
| Basics.WithoutAll | lib/tengine/mq/suite.rb:817-821 | deleting each acknowledged record in turn leaves exactly the elements that are not among them |
| Basics.WithoutAllKeepsOrder | lib/tengine/mq/suite.rb:817-821 | deleting the acknowledged records one by one keeps the survivors in their original order |
| Basics.WithoutKeepsDistinct | lib/tengine/mq/suite.rb:960 | deleting from a duplicate-free array (the pending set) keeps it duplicate-free |
| Basics.Reverse | lib/tengine/mq/suite.rb:518 | `reverse_each` visits position i of the result at position n-1-i of the array |
| Table.Put | lib/tengine/mq/suite.rb:955 | `h[k] = v`: the map gains k => v; a new key goes to the end of the insertion order, and an existing key keeps its place |
| Table.Delete | lib/tengine/mq/suite.rb:959 | `h.delete k`: k leaves the map and the key order; every other key keeps its value, and the remaining keys keep their relative order |
| Table.PutAll | lib/tengine/mq/suite.rb:867-869 | assigning v to every element of xs: the keys become the old keys plus xs; xs map to v, every other key keeps its value |
| Table.PutAllKeepsPrefix | lib/tengine/mq/suite.rb:867-869 | the old keys stay in front, in their order |
| Table.PutAllKeepsKeys | lib/tengine/mq/suite.rb:867-869 | every key after the old ones is an element of xs that was not a key before |
| Table.PutAllKeyOrder | lib/tengine/mq/suite.rb:867-869 | the keys added are in the order in which xs names them |
| Table.DeleteAll | lib/tengine/mq/suite.rb:817-819 | deleting every element of xs: exactly the keys outside xs remain, with their values, and any two of them stay in their old relative order |
| HashExt.MergeCompact | lib/tengine/mq/suite.rb:323 | `defaults.merge given.compact`: the keys are the defaults' plus the non-nil given ones; every non-nil given value wins, and a default whose key is given as nil or not given stays |
| HashExt.CompactInPlace | lib/tengine/mq/suite.rb:39-47 | `compact!` on the copy, dropping nil-valued entries one key at a time, ends with exactly the hash `compact` describes: the non-nil entries with their values |
| Reactor.EachNextTickRunsInOrder | lib/tengine/mq/suite.rb:12-23 | a chain scheduled by `each_next_tick` on an idle reactor runs its elements one per tick, in the original order, and then the queue is empty |
| Reactor.TwoChainsInterleave | lib/tengine/mq/suite.rb:803-814 | the ng chain and the ok chain that an ack schedules back to back alternate tick by tick, and each keeps its own order |
| Reactor.InterleaveLength | lib/tengine/mq/suite.rb:803-814 | the two interleaved chains run every job of both exactly once in total: the run is as long as both chains and, as a multiset, is their union |
| Delivery.ResolveIsMergeCompact | lib/tengine/mq/suite.rb:323 | the options a record gets, read as a hash, are exactly `@config[:sender].merge opts.compact` over the given options |
| Delivery.PartitionIsPermutation | lib/tengine/mq/suite.rb:792-796 | the tag partition loses and duplicates nothing: the two halves together are a permutation of the list |
| Delivery.PartitionMembership | lib/tengine/mq/suite.rb:792-796 | a record is in the first half exactly when it is listed and passes the tag test (`<= n` or `< n`), and in the second half exactly when it fails it |
| Delivery.PartitionOfAscending | lib/tengine/mq/suite.rb:792-796 | on a list with ascending tags the partition is a split: the hits are a prefix, the rest the suffix, and both halves stay ascending |
| Delivery.SelectedKeepsOrder | lib/tengine/mq/suite.rb:792-796 | the first half of `partition` keeps the list's order, whatever the tags |
| Delivery.RejectedKeepsOrder | lib/tengine/mq/suite.rb:792-796 | the second half of `partition` keeps the list's order, whatever the tags |
| Delivery.AckMultiple | lib/tengine/mq/suite.rb:792-793 | an ack with `multiple` acknowledges exactly the listed records tagged <= n, marks none lost, and keeps exactly those tagged > n; it is a permutation of the list; both the acknowledged and the kept records stay in their list order; on an ordered list the acknowledged records are a prefix and the kept ones stay ordered |
| Delivery.AckSingle | lib/tengine/mq/suite.rb:794-801 | a single ack marks lost exactly the records tagged < n; it acknowledges at most one record, the first one not tagged below n, whatever its tag; there is none only when every tag is below n; ng, ok and the rest are a permutation of the list; ng, and ok followed by the rest, stay in their list order; on an ordered list they are consecutive slices |
| Delivery.PlanAckMembers | lib/tengine/mq/suite.rb:790-801 | everything an ack acknowledges, marks lost or keeps came from the publishing list |
| Delivery.AnyKeepsConnection | lib/tengine/mq/suite.rb:823 | the `inject` over the acknowledged records is true exactly when one of them has `keep_connection` |
| Delivery.AckStops | lib/tengine/mq/suite.rb:788-827 | an ack requests `stop` exactly when all four hold: the list was not empty before the ack, nothing was lost, no acknowledged record keeps the connection, and nothing is pending afterwards |
| Delivery.NackAsWrittenDropsRecords | lib/tengine/mq/suite.rb:839-843 | as written, a single nack of tag 2 over records tagged 1 and 2 neither re-queues nor keeps the record tagged 1 |
| Delivery.NackLosesNothing | lib/tengine/mq/suite.rb:831-845 | the corrected nack re-queues or keeps every listed record; on an ordered list it re-queues a prefix and keeps the ordered suffix |
| Delivery.RetryCeiling | lib/tengine/mq/suite.rb:947-956 | a record that fails every time is attempted `retry_count - retry + 1` times (a fresh record `retry_count + 1` times, once when the count is not positive) |
| Delivery.AscendingWithout | lib/tengine/mq/suite.rb:961 | removing a record from a list with strictly ascending tags leaves it strictly ascending |
| Delivery.EventsWhere | lib/tengine/mq/suite.rb:420-424 | `pending_events` returns the event of every pending record that the block selects, and only such events |
| Hooks.Callbacks | lib/tengine/mq/suite.rb:623-644 | every object offers the three basic callbacks; the four connection callbacks are offered exactly by the connection, `on_error` exactly by the channel, and nothing else is offered |
| Hooks.HookNameIsNotEverything | lib/tengine/mq/suite.rb:526 | a `klass.mid` hook name never equals `everything`, so no list runs twice in one callback |
| Hooks.Register | lib/tengine/mq/suite.rb:277-282 | `add_hook` appends the block to the end of its own list and leaves every other list alone |
| Hooks.DefaultHooks | lib/tengine/mq/suite.rb:890-912 | construction installs exactly five hooks: the logger on `everything`, reconnect on TCP connection loss, fail-fast on TCP connection failure, revoke on channel interruption, and recover after channel recovery |
| Hooks.DefaultHooksAreReachable | lib/tengine/mq/suite.rb:890-912 | every default hook other than the logger hangs on a callback that its object really offers |
| Hooks.DispatchOrderPositions | lib/tengine/mq/suite.rb:514-537 | a callback runs all `everything` hooks first, newest first, then the callback's own hooks, newest first |
| Hooks.NewestHookRunsFirst | lib/tengine/mq/suite.rb:277-282 | a hook added last to a callback runs first among that callback's own hooks, right after the `everything` ones |
| Hooks.Failures | lib/tengine/mq/suite.rb:514-537 | every raising hook contributes its error, and every collected error comes from a raising hook: one raise does not stop the later hooks |
| Hooks.FailuresAppend | lib/tengine/mq/suite.rb:514-537 | the errors of two hook lists run in sequence are the errors of the first followed by those of the second |
| Hooks.RaiseCollected | lib/tengine/mq/suite.rb:75-86 | the intended container: it raises nothing when no error was collected, re-raises the error itself when there is exactly one, and raises itself, holding every error in order, when there are more |
| Hooks.RaiseCollectedAsWritten | lib/tengine/mq/suite.rb:75-86 | as written: nothing when no error was collected, the error itself when there is one, and, with two or more, a new RuntimeError "unhandled exception" from the bare `super`, never the container |
| Hooks.AsWrittenDiffersIffSeveralFail | lib/tengine/mq/suite.rb:84 | the container as written and the intended one agree exactly when fewer than two hooks failed |
| Hooks.AsWrittenLosesCollectedErrors | lib/tengine/mq/suite.rb:84 | when the fail-fast hook and one user hook both raise, the code as written raises "unhandled exception", which is neither collected error; the intended container raises both, in running order |
| Hooks.QuietIffNoHookFails | lib/tengine/mq/suite.rb:75-86 | a callback stays quiet exactly when none of the hooks it runs raises |
| Bookkeeping.Initial | lib/tengine/mq/suite.rb:206-265 | a new suite is disconnected, tracks nothing, and has the default hooks; it satisfies the invariant |
| Bookkeeping.Resend | lib/tengine/mq/suite.rb:803-809 | re-sending keeps the invariant and every record |
| Bookkeeping.Resolve | lib/tengine/mq/suite.rb:957-964 | a record that is done with leaves the pending set, the publishing list and the retrying table; every other record stays in each of them, with its retry entry unchanged; `stop` is requested unless the record keeps the connection |
| Bookkeeping.AfterPublishFailed | lib/tengine/mq/suite.rb:947-965 | below the retry ceiling, a retry timer for `now + retry_interval` is armed and entered in the table as `[timer, now]`, and the record stays pending and listed; at the ceiling the record is resolved |
| Bookkeeping.AfterPublished | lib/tengine/mq/suite.rb:967-990 | when established, the tag counter goes up by one, the record gets the new tag and joins the end of the list; when unsupported, completion is queued for the next tick; in any other state nothing changes |
| Bookkeeping.StampKeepsTagsOrdered | lib/tengine/mq/suite.rb:983-986 | stamping the next tag onto a record not yet listed, and appending it, keeps the list strictly ascending and within the counter |
| Bookkeeping.AfterJob | lib/tengine/mq/suite.rb:803-885 | effect of each queued job: a requeue bumps `retry` by exactly one and refills the firing queue; a completion calls the block and leaves the pending set alone; a finish calls the block, removes exactly that record from the pending set, the publishing list and the retrying table, and requests `stop` unless it keeps the connection; an overdue replay is fired at once, and any other replay gets a timer for `scheduled_at + retry_interval` |
| Bookkeeping.AfterTimer | lib/tengine/mq/suite.rb:949-953 | a timer that fires is gone, and its record joins the firing queue |
| Bookkeeping.AfterTick | lib/tengine/mq/suite.rb:12-23 | one reactor tick keeps the invariant |
| Bookkeeping.AfterSend | lib/tengine/mq/suite.rb:932-941 | publishing the head of the firing queue keeps the invariant |
| Bookkeeping.FailedPublishIsRetried | lib/tengine/mq/suite.rb:947-956 | a failed publish below the ceiling is re-queued when its timer fires, `retry_interval` later, with exactly one more retry, and it stays pending meanwhile |
| Bookkeeping.AckStaysSound | lib/tengine/mq/suite.rb:786-829 | an ack keeps the invariant |
| Bookkeeping.AckFinalises | lib/tengine/mq/suite.rb:792-822 | an ack removes exactly the acknowledged records from the pending set; they leave the retrying table and their completions are queued; lost records are queued to be re-sent; every listed record is kept, completed or re-sent; no block runs during the ack itself |
| Bookkeeping.AckQueuesJobs | lib/tengine/mq/suite.rb:803-814 | an ack schedules a requeue job for every lost record and a completion job for every acknowledged one |
| Bookkeeping.AckKeepsTagsOrdered | lib/tengine/mq/suite.rb:792-801 | after an ack the publishing list is still strictly ascending by tag |
| Bookkeeping.FireKeepsTagsOrdered | lib/tengine/mq/suite.rb:322-330 | `fire` adds a fresh record to the pending set and the firing queue and keeps tag order |
| Bookkeeping.ResendKeepsTagsOrdered | lib/tengine/mq/suite.rb:803-809 | re-queuing a record keeps tag order |
| Bookkeeping.ResolveKeepsTagsOrdered | lib/tengine/mq/suite.rb:957-964 | giving up on a record removes it from the list with `reject!` and keeps tag order |
| Bookkeeping.PublishFailedKeepsTagsOrdered | lib/tengine/mq/suite.rb:947-965 | a failed publish, retried or given up, keeps tag order |
| Bookkeeping.PublishedKeepsTagsOrdered | lib/tengine/mq/suite.rb:967-990 | `published` of a record not already listed keeps tag order: the new tag is above every listed one |
| Bookkeeping.JobKeepsTagsOrdered | lib/tengine/mq/suite.rb:803-885 | each queued job (requeue, completion, finish, replay) keeps tag order |
| Bookkeeping.TimerKeepsTagsOrdered | lib/tengine/mq/suite.rb:949-953 | a retry timer that fires keeps tag order |
| Bookkeeping.TickKeepsTagsOrdered | lib/tengine/mq/suite.rb:12-23 | one reactor tick keeps tag order |
| Bookkeeping.SendKeepsTagsOrdered | lib/tengine/mq/suite.rb:932-941 | sending the head of the firing queue keeps tag order when that record is not already on the list |
| Bookkeeping.NackKeepsTagsOrdered | lib/tengine/mq/suite.rb:831-854 | the corrected nack keeps tag order |
| Bookkeeping.RevokeKeepsTagsOrdered | lib/tengine/mq/suite.rb:858-872 | revoke, as written and corrected, keeps tag order |
| Bookkeeping.ReinvokeKeepsTagsOrdered | lib/tengine/mq/suite.rb:874-888 | reinvoke keeps tag order |
| Bookkeeping.HooksKeepTagsOrdered | lib/tengine/mq/suite.rb:514-537 | running any sequence of hooks keeps tag order |
| Bookkeeping.RetryLeavesEntry | lib/tengine/mq/suite.rb:947-955 | a record whose first publish raised, once its retry timer has fired, is back on the firing queue with its retry entry still in the table, and the engine is sound and ordered |
| Bookkeeping.StaleEntryReplayed | lib/tengine/mq/suite.rb:858-888 | an interruption and a confirm-select then replay that stale entry, although the record is already queued |
| Bookkeeping.StaleReplayQueuesAgain | lib/tengine/mq/suite.rb:876-884 | the overdue replay puts the record on the firing queue a second time |
| Bookkeeping.BothCopiesSent | lib/tengine/mq/suite.rb:932-941 | both queued copies are sent, and the record is listed twice |
| Bookkeeping.StaleRetryEntrySendsTwice | lib/tengine/mq/suite.rb:947-990 | from a sound, ordered engine, an interruption, the recovery, one tick and two sends list one record twice under one tag: tag order is not an invariant of every run |
| Bookkeeping.AfterNack | lib/tengine/mq/suite.rb:831-854 | the corrected nack keeps the invariant |
| Bookkeeping.NackNeverFinalises | lib/tengine/mq/suite.rb:831-854 | a nack removes nothing from the pending set or the retrying table, calls no block and requests no stop; every record it takes off the list is queued to be re-sent |
| Bookkeeping.ArmedTimers | lib/tengine/mq/suite.rb:862-864 | the timers cancelled are exactly those held by the table's entries |
| Bookkeeping.AfterRevokeAsWritten | lib/tengine/mq/suite.rb:858-872 | revoke as written disconnects and keeps the invariant, leaves the publishing list as it was, and does nothing when already disconnected |
| Bookkeeping.AfterRevoke | lib/tengine/mq/suite.rb:858-872 | corrected revoke: it does nothing when already disconnected, so a second revoke changes nothing. Otherwise it disconnects and cancels every armed retry timer; every record awaiting an ack is entered as `[nil, epoch]` and leaves the publishing list; every other entry stays in the table unchanged, and no other entry appears; the pending set and the records are unchanged |
| Bookkeeping.AfterReinvoke | lib/tengine/mq/suite.rb:874-888 | every retrying entry gets a replay job and the table is empty afterwards |
| Bookkeeping.InterruptedRecordsAreReplayed | lib/tengine/mq/suite.rb:858-888 | after an interruption and a recovery, every record that was awaiting an ack is replayed as overdue, so it is fired again at once once its interval has passed; every record that was waiting on a retry timer is replayed with its own entry |
| Bookkeeping.FrozenReplayedInPublishingOrder | lib/tengine/mq/suite.rb:858-888 | the replays run in table order: the entries already retrying first, in their order, then the records frozen by the revoke, in the order they were published |
| Bookkeeping.AfterConfirmSelect | lib/tengine/mq/suite.rb:754-767 | confirm-select establishes the handshake, resets the tag counter to 0, clears the setup flag, and schedules a replay of every retrying entry, leaving the table empty |
| Bookkeeping.ReconnectionStartsClean | lib/tengine/mq/suite.rb:754-767 | with the corrected revoke, after interruption and confirm-select no tag of the old channel remains, the list is ordered, and every record that was in flight is replayed |
| Bookkeeping.Reconnected | lib/tengine/mq/suite.rb:932-990 | the recovery sequence (confirm-select, one tick, one send) keeps the invariant |
| Bookkeeping.RevokeAsWrittenCompletesTwice | lib/tengine/mq/suite.rb:858-872 | as written, a record in flight at an interruption is listed twice after recovery, tags are no longer ascending, and the first multiple ack queues its completion twice |
| Bookkeeping.RevokeCompletesOnce | lib/tengine/mq/suite.rb:858-872 | with the corrected revoke, the same recovery restores the engine to its state before the interruption, and the ack queues the completion once |
| Bookkeeping.AfterHook | lib/tengine/mq/suite.rb:890-912 | running one hook keeps the invariant and the registry |
| Bookkeeping.AfterHooks | lib/tengine/mq/suite.rb:514-537 | running a sequence of hooks keeps the invariant and the registry |
| MqSuite.Suite.constructor | lib/tengine/mq/suite.rb:206-265 | the new suite is the initial engine |
| MqSuite.Suite.AddHook | lib/tengine/mq/suite.rb:277-282 | with a block, it is appended to its list and nothing else changes; without one, the error is "no block given" and nothing changes |
| MqSuite.Suite.Fire | lib/tengine/mq/suite.rb:322-330 | a fresh record is created with retry 0 and the resolved options; it becomes pending and joins the firing queue; the firing loop is kicked exactly when the queue holds at most one record |
| MqSuite.Suite.FireNext | lib/tengine/mq/suite.rb:932-941 | the head of the firing queue is published; a raise goes to `publish_failed`, a success to `published`; outside a resolved handshake the outcome is the timing bug |
| MqSuite.Suite.PublishFailed | lib/tengine/mq/suite.rb:947-965 | moves the state as `AfterPublishFailed` |
| MqSuite.Suite.Forget | lib/tengine/mq/suite.rb:957-964 | moves the state as `Resolve` |
| MqSuite.Suite.Published | lib/tengine/mq/suite.rb:967-990 | moves the state as `AfterPublished`; it reports success exactly when the handshake is resolved |
| MqSuite.Suite.RunTick | lib/tengine/mq/suite.rb:12-23 | runs a job exactly when one is queued, and moves the state as `AfterTick` |
| MqSuite.Suite.RunJob | lib/tengine/mq/suite.rb:803-885 | moves the state as `AfterJob` |
| MqSuite.Suite.Requeue | lib/tengine/mq/suite.rb:803-809 | moves the state as `Resend` |
| MqSuite.Suite.Replay | lib/tengine/mq/suite.rb:876-885 | moves the state as the replay case of `AfterJob` |
| MqSuite.Suite.FireTimer | lib/tengine/mq/suite.rb:949-953 | a timer fires exactly when it exists and is due, and then moves the state as `AfterTimer`; otherwise nothing changes |
| MqSuite.Suite.ConsumeAck | lib/tengine/mq/suite.rb:786-829 | moves the state as `AfterAck` and keeps the invariant |
| MqSuite.Suite.FinaliseAcked | lib/tengine/mq/suite.rb:815-827 | the acknowledged records leave the retrying table and the pending set; one stop request is added exactly when `AckStops` holds |
| MqSuite.Suite.ConsumeNackAsWritten | lib/tengine/mq/suite.rb:831-836 | as written, every nack fails on the undefined `ack` before changing anything |
| MqSuite.Suite.ConsumeNack | lib/tengine/mq/suite.rb:831-854 | moves the state as the corrected `AfterNack` |
| MqSuite.Suite.RevokeRetryTimers | lib/tengine/mq/suite.rb:858-872 | moves the state as the corrected `AfterRevoke` |
| MqSuite.Suite.ReinvokeRetryTimers | lib/tengine/mq/suite.rb:874-888 | moves the state as `AfterReinvoke` |
| MqSuite.Suite.SetupsHandshake | lib/tengine/mq/suite.rb:738-784 | when the broker advertises confirms and the channel is not yet confirming, the state becomes handshaking. When it advertises them and the channel is already confirming, only the setup flag is set. Otherwise the state becomes unsupported, which counts as resolved, and the flag is cleared |
| MqSuite.Suite.ConfirmSelectOk | lib/tengine/mq/suite.rb:754-767 | moves the state as `AfterConfirmSelect` |
| MqSuite.Suite.RunHook | lib/tengine/mq/suite.rb:890-912 | moves the state as `AfterHook` |
| MqSuite.Suite.Dispatch | lib/tengine/mq/suite.rb:514-537 | runs the hooks in dispatch order, and the state moves as running them one by one; what it raises is the intended container's verdict (`RaiseCollected`) on the collected failures, not the as-written one |
| MqSuite.Suite.RunHooks | lib/tengine/mq/suite.rb:518-532 | the two `reverse_each` loops: the state moves as running the hooks one by one, and the errors collected are exactly the failing hooks' errors, in order |
| MqSuite.Suite.PendingEvents | lib/tengine/mq/suite.rb:420-425 | returns the events of exactly the pending records that the block selects |
| MqSuite.Suite.PendingEventsFor | lib/tengine/mq/suite.rb:427-431 | returns the events of exactly the pending records fired by that sender |
| MqSuite.Suite.Reset | lib/tengine/mq/suite.rb:337-345 | `p0`: disconnected, no setup in progress, a new empty firing queue; nothing else changes |
| MqSuite.SettleAcked | lib/tengine/mq/suite.rb:817-821 | the loop deletes every acknowledged record from the retrying table and the pending set |
| MqSuite.CancelRetryTimers | lib/tengine/mq/suite.rb:862-864 | the loop stops exactly the timers held by retrying entries |
| MqSuite.FreezePublishing | lib/tengine/mq/suite.rb:866-869 | the loop enters every listed record as `[nil, epoch]` |

The Bookkeeping functions above give, for each operation, the exact state it
leads to, and each "moves the state as" method is proved equal to its
function. The properties of an operation are stated about its function:
the invariant `Sound`, tag order `TagsOrdered`, and the lemmas in the table.

## Left out

- AMQP plumbing is not modelled: creating the connection, channel, exchange
  and queue, `subscribe`, `publish` itself, and `setups`' dynamic method
  definitions. These are calls into the amqp gem. A publish is modelled
  only as raising or not.
- Threads and the reactor loop are not modelled: the mutex and
  `synchronize`, condition-variable waits and broadcasts, `ensures` /
  `ensures_handshake`, and `trigger_firing_thread`'s `EM::Queue` pop loop.
  The firing loop is one `FireNext` call per turn.
- `stop` is modelled only as its final state reset `p0` (`Reset`) and as a
  counter of stop requests. Its deferred wait for the pending set to drain,
  the channel close and the connection disconnect are concurrency and I/O.
  `EM.stop` and the caller's block are not modelled.
- `self.pending?` walks every live suite through `ObjectSpace`, and is not
  modelled. `rehash_them_all`, `deep_freeze`, `logger`, `inspect`,
  `pretty_print` and `deprecated` are also left out.
- Configuration is left out. The constructor takes the `:sender` options
  and `auto_reconnect_delay` directly; ActiveSupport's `deep_merge!` and
  `symbolize_keys` are not part of this model.
- Time is a whole number of seconds; float intervals are not modelled.
- Ruby Struct equality is not modelled. In Ruby, two records with equal
  fields are the same Hash key and the same array element. Here every
  record has its own id.
- The channel's `prefetch` call in the recovery hook, and the registration
  of the ack and nack callbacks in confirm-select, are broker calls and are
  left out.
- The warning logged when the broker lacks publisher confirms is left out
  (it is logged on every such handshake).
- The `@hooks` default block stores an empty list for every name it is asked
  about. Looking a name up therefore changes the Hash, which is invisible
  to dispatch; `Lookup` reads a missing name as empty without storing it.
- The firing loop's halt when `published` raises its timing bug is not
  modelled. The model reports `TimingBug`; the record has left the firing
  queue, as the queue's pop does, and nothing else changes. Later turns are
  not stopped.
- User hooks do not run arbitrary code. A user hook is known only by
  whether it raises.
- The logger hook on `everything` and the fail-fast hook change no engine
  state. Reconnecting is modelled as a counter bumped when
  `auto_reconnect_delay` is set.
- Bookkeeping.AfterPublished: on a successful publish the record's retrying
  entry is left in place, as in the source, which deletes it only when the
  ack arrives.
- Bookkeeping.AfterJob: an ack's completion does not cancel a retry timer
  that is still armed, as in the source.
- Bookkeeping.AfterPublishFailed: a record has one retry entry at most, and
  `Table.Put` overwrites it. In Ruby the retry timer (line 951) bumps
  `retry`, which the record's hash covers, without `rehash_them_all`. The
  next failed publish then stores `[idx, Time.now]` (line 955) under the new
  hash, beside the old entry. Until a rehash, a record that keeps failing
  holds one entry per attempt, and a reconnection replays it once per entry
  (line 876), so it is sent and completed more than once.
- Bookkeeping.AfterJob: the model's ids never go stale, so the deletes of a
  finished record always succeed. In Ruby the record is a Hash key whose hash
  covers `retry`, and the retry timer (line 951) bumps `retry` without
  `rehash_them_all`. On a broker without publisher confirms, a record whose
  first publish raised and whose retried publish succeeded is then missed by
  the deletes at lines 973-974. It stays pending, and `stop`'s wait for the
  pending set to drain does not end. The model's `Finish` job removes it.
- Tag order (`TagsOrdered`) is not part of the invariant `Valid()`. Each
  operation keeps it under the conditions its lemma states, but a retry entry
  outlives its fired timer (lines 949-955). A reconnection can then replay a
  record that is already queued, and the record is sent twice
  (`StaleRetryEntrySendsTwice`).
- MqSuite.Suite.ConsumeNackAsWritten: only the error is stated. The source
  raises before touching any state, and the method has no `modifies`
  clause.

## Findings

| source | as written | input that shows it | evidently intended | confidence | as-written member | corrected member |
|---|---|---|---|---|---|---|
| lib/tengine/mq/suite.rb:836 | `consume_basic_nack` reads `ack.multiple`, but its parameter is `nack`, so every nack raises NameError before re-queuing anything | any nack from the broker | `nack.multiple` | high, not executed | MqSuite.Suite.ConsumeNackAsWritten | MqSuite.Suite.ConsumeNack |
| lib/tengine/mq/suite.rb:839-843 | in a single nack, `ng = [ev]` replaces the records tagged below n, so they leave the list without being re-sent | a single nack of tag 2 over records tagged 1 and 2: the record tagged 1 is neither re-queued nor kept | re-send the records below n together with the shifted one | high, not executed | Delivery.NackAsWrittenDropsRecords | Delivery.NackLosesNothing |
| lib/tengine/mq/suite.rb:84 | with two or more collected errors the container's `raise` calls a bare `super`, which is `Kernel#raise` with no argument. Every hook error was rescued, so no exception is being handled, and a new RuntimeError "unhandled exception" is raised instead of the container | the fail-fast hook and one user hook both raise in one callback | raise the container itself, holding every error | medium, not executed | Hooks.AsWrittenLosesCollectedErrors | Hooks.RaiseCollected |
| lib/tengine/mq/suite.rb:858-872 | `revoke_retry_timers` freezes every record awaiting an ack into the retrying table, but leaves it in `@publishing_events`. After recovery the tags restart at 1, and the replayed record is listed a second time | one record in flight with tag 1, an interruption, recovery and confirm-select, the replay and its publish; then an ack of tag 1 with `multiple`: its completion block is queued twice | the records considered lost also leave the publishing list | medium, not executed | Bookkeeping.RevokeAsWrittenCompletesTwice | Bookkeeping.RevokeCompletesOnce |

The rest of the model uses the corrected behaviour:

- `MqSuite.Suite.ConsumeNack` / `Bookkeeping.AfterNack` select with the ack's
  partition and re-send everything selected.
- `MqSuite.Suite.Dispatch` raises what `Hooks.RaiseCollected` gives: the
  container itself when several hooks fail.
- `MqSuite.Suite.RevokeRetryTimers` / `Bookkeeping.AfterRevoke` also empty the
  publishing list. `Bookkeeping.ReconnectionStartsClean` proves this for
  every engine.
