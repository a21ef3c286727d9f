# RxPermissions request engine, modelled in Dafny

RxPermissions lets an Android caller request runtime permissions and get each
outcome back as an event stream. This project models the engine underneath the
streams, without Android or RxJava:

- the **request coordinator** (`requestImplementation`). It walks the requested
  names in order. A name that is already granted, or revoked by policy, gets an
  immediate `Permission`. Any other name waits on a channel. The channel is
  reused when the name already has one in the registry; otherwise a new one is
  registered. All newly registered names then go to the platform dialog in one
  batch.
- the **registry and result dispatcher** (the headless fragment). It maps each
  pending name to its channel. It dispatches the platform's answer, removing
  each entry before its channel publishes, and it stops the batch at the first
  name that has no entry.
- the **`Permission` value**: list combination (names joined with ", ",
  granted AND, rationale AND), field-wise equality and the 32-bit `hashCode`.
- the surrounding pure parts: the empty-list guard, the `pending` trigger gate,
  `oneOf`, the per-buffer reductions of `ensure` and `ensureEachCombined`, and
  the rationale query.

Files: `wrappers.dfy` (Option, Result), `sequences.dfy` (Kotlin's
`firstOrNull` and `joinToString`, plus filter and first-occurrence reference
definitions), `permission.dfy` (Permission.kt), `fragment.dfy`
(RxPermissionsFragment.kt), `rx_permissions.dfy` (RxPermissions.kt).

Platform queries become data: `Host` carries `isMarshmallow`,
`checkSelfPermission`, `isPermissionRevokedByPolicy` and
`shouldShowRationale`. A channel (a `PublishSubject`) is a `ChannelId` taken
from a counter kept next to the registry. What a channel published (`onNext`
followed by `onComplete`) is recorded in the fragment's `delivered` map, and
the order in which channels published is recorded in its `log`. The
fragment's invariant (`RegistryInvariant`) says three things: a registered
channel has not published yet, every channel is older than the counter, and
no two names share a channel. Together with removal on dispatch, this means
each channel publishes at most one value, and exactly one once its name is
dispatched (`DispatchPublishesResolved`). Prompts sent to the platform with
request code 42 are logged in the fragment's `prompts` field.

The output of a request is `Observable.concat` over its slots
(lib/src/main/java/com/tbruyelle/rxpermissions3/RxPermissions.kt:219). `Concat` models it over the
publication log. Each slot is subscribed when the previous one completes. An
immediate slot contributes its outcome. A waiting slot contributes what its
channel publishes only if the channel publishes after the slot subscribed,
because a `PublishSubject` passes values only to current subscribers.

Behaviour of the code worth knowing, each modelled as written:

- Dispatch **aborts the rest of the batch** at the first name with no entry.
  The `return` at lib/src/main/java/com/tbruyelle/rxpermissions3/RxPermissionsFragment.kt:55
  leaves `onRequestPermissionsResult` itself, not just the current element, so
  later names of the batch keep their entries and their channels stay silent
  (`StopIndexCharacterised`, `Dispatch`).
- A name that needs a prompt and is requested **twice in one request** gets
  one channel (lib/src/main/java/com/tbruyelle/rxpermissions3/RxPermissions.kt:203-210). In a request
  none of whose names was pending, the channel completes while the first slot
  is subscribed. The second slot then subscribes to a completed
  `PublishSubject` and contributes nothing, so the output has exactly one value
  for that name, not two (`AnsweredRepeatSlot`, `AnsweredRequestOutput`). A
  granted or revoked name takes the immediate branch
  (lib/src/main/java/com/tbruyelle/rxpermissions3/RxPermissions.kt:192-201) and gives a value at every
  occurrence.
- A name **already pending** from an earlier request gives at most one value,
  and possibly none. Its channel is shared with the earlier request. It can
  publish while this request's output is still subscribed to an earlier slot,
  and the answer is then lost for this request. In
  `PendingAnswerBeforeSubscriptionIsLost`, request 1 asks for B, then request 2
  asks for A and B, and B is denied before A is granted. Request 2's output is
  A's outcome alone, and `ensure` yields `[true]` although B was denied.
- `Permission(list)` accepts an **empty list** and gives `Permission("", true, true)`,
  since `firstOrNull` finds nothing in an empty list
  (lib/src/main/java/com/tbruyelle/rxpermissions3/Permission.kt:5-9).
- The combined rationale flag is an **AND**
  (lib/src/main/java/com/tbruyelle/rxpermissions3/Permission.kt:8). The doc comment of `ensureEachCombined`
  (lib/src/main/java/com/tbruyelle/rxpermissions3/RxPermissions.kt:120-121)
  says "if any", which would be an OR. `CombineRationaleIsConjunction` shows
  the difference on a two-element list.

## Model

| member | source | states |
|---|---|---|
| `Sequences.FirstOrNull` | lib/src/main/java/com/tbruyelle/rxpermissions3/RxPermissions.kt:101 | null iff no element satisfies the predicate; otherwise the value is the first element that does |
| `Sequences.JoinToString` | lib/src/main/java/com/tbruyelle/rxpermissions3/Permission.kt:6 | empty list gives ""; otherwise the result starts with the first part |
| `Sequences.JoinToStringAppend` | lib/src/main/java/com/tbruyelle/rxpermissions3/Permission.kt:6 | joining a concatenation = joining each half, separated by ", " once |
| `Permissions.RationaleDefaultsToFalse` | lib/src/main/java/com/tbruyelle/rxpermissions3/Permission.kt:3 | an omitted rationale flag is false |
| `Permissions.Combine` | lib/src/main/java/com/tbruyelle/rxpermissions3/Permission.kt:5-9 | name is the names joined with ", " in list order; granted iff every element is granted; rationale iff every element has it |
| `Permissions.CombineSingleton` | lib/src/main/java/com/tbruyelle/rxpermissions3/Permission.kt:5-9 | combining a one-element list gives that element back |
| `Permissions.CombineRationaleIsConjunction` | lib/src/main/java/com/tbruyelle/rxpermissions3/Permission.kt:8 | one element with a rationale and one without combine to no rationale (AND, not the OR in the doc comment) |
| `Permissions.CombineAppend` | lib/src/main/java/com/tbruyelle/rxpermissions3/Permission.kt:5-9 | combination is associative: combine(a + b) = combine([combine(a), combine(b)]) for non-empty a and b |
| `Permissions.Equals` | lib/src/main/java/com/tbruyelle/rxpermissions3/Permission.kt:11-20 | true iff the other object is non-null and name, granted and rationale all match |
| `Permissions.EqualsReflexive` | lib/src/main/java/com/tbruyelle/rxpermissions3/Permission.kt:11-20 | every Permission equals itself |
| `Permissions.EqualsSymmetric` | lib/src/main/java/com/tbruyelle/rxpermissions3/Permission.kt:11-20 | equality is symmetric |
| `Permissions.HashCodeConsistentWithEquals` | lib/src/main/java/com/tbruyelle/rxpermissions3/Permission.kt:22-28 | equal Permissions have equal hashCode, computed with 32-bit wrap-around |
| `Permissions.HashCodeSeparatesGranted` | lib/src/main/java/com/tbruyelle/rxpermissions3/Permission.kt:22-28 | two Permissions that differ only in the granted flag have different hashCodes |
| `Permissions.HashCodeSeparatesRationale` | lib/src/main/java/com/tbruyelle/rxpermissions3/Permission.kt:22-28 | two Permissions that differ only in the rationale flag have different hashCodes |
| `Permissions.Wrap32` | lib/src/main/java/com/tbruyelle/rxpermissions3/Permission.kt:24-25 | the 32-bit result is congruent to the unbounded value modulo 2^32, as Java's Int arithmetic wraps |
| `Permissions.Wrap32Step` | lib/src/main/java/com/tbruyelle/rxpermissions3/Permission.kt:24-25 | two integers one apart stay different after 32-bit truncation |
| `Permissions.StringHashIsPolynomial` | lib/src/main/java/com/tbruyelle/rxpermissions3/Permission.kt:23 | the step-by-step 32-bit `String.hashCode` equals the polynomial s[0]*31^(n-1) + ... + s[n-1] modulo 2^32 |
| `Permissions.HashCodeIsPolynomial` | lib/src/main/java/com/tbruyelle/rxpermissions3/Permission.kt:22-28 | hashCode is 31^2 * hash(name) + 31 * granted + rationale (flags as 0 or 1) modulo 2^32 |
| `Fragment.Outcome` | lib/src/main/java/com/tbruyelle/rxpermissions3/RxPermissionsFragment.kt:60-61 | the outcome for batch index i has name permissions[i], is granted iff grantResults[i] is PERMISSION_GRANTED, and has rationale flags[i] |
| `Fragment.DispatchFrom` | lib/src/main/java/com/tbruyelle/rxpermissions3/RxPermissionsFragment.kt:47-64 | dispatch from an index only removes entries, never un-publishes a channel, and only appends to the publication log |
| `Fragment.DispatchLog` | lib/src/main/java/com/tbruyelle/rxpermissions3/RxPermissionsFragment.kt:58-62 | dispatch from an index appends one log entry per resolved name, the channel of that name, in batch order |
| `Fragment.DispatchKeepsLog` | lib/src/main/java/com/tbruyelle/rxpermissions3/RxPermissionsFragment.kt:58-62 | after dispatch the publication log still holds exactly the channels that have published |
| `Fragment.StopIndexCharacterised` | lib/src/main/java/com/tbruyelle/rxpermissions3/RxPermissionsFragment.kt:48-56 | every name before the stop index has an entry and is not a repeat; the name at the stop index has no entry or is a repeat |
| `Fragment.DispatchSubjects` | lib/src/main/java/com/tbruyelle/rxpermissions3/RxPermissionsFragment.kt:52-58 | dispatch removes exactly the resolved names from the registry; every other entry keeps its channel |
| `Fragment.DispatchKeepsPublished` | lib/src/main/java/com/tbruyelle/rxpermissions3/RxPermissionsFragment.kt:58-62 | every value published before dispatch is unchanged after it |
| `Fragment.DispatchPublishesResolved` | lib/src/main/java/com/tbruyelle/rxpermissions3/RxPermissionsFragment.kt:58-62 | the channel of each resolved name publishes the outcome at that name's index |
| `Fragment.DispatchPublishesOnlyResolved` | lib/src/main/java/com/tbruyelle/rxpermissions3/RxPermissionsFragment.kt:52-62 | no channel publishes unless it belongs to a resolved name |
| `Fragment.DispatchKeepsInvariant` | lib/src/main/java/com/tbruyelle/rxpermissions3/RxPermissionsFragment.kt:58-62 | dispatch keeps the registry invariant, so no channel publishes twice |
| `Fragment.Dispatch` | lib/src/main/java/com/tbruyelle/rxpermissions3/RxPermissionsFragment.kt:47-64 | summary of one batch: names before the stop index are removed and their silent channels get their outcome; the stop name has no entry or is a repeat; all other entries and earlier values are untouched; the invariant holds |
| `Fragment.DispatchLogged` | lib/src/main/java/com/tbruyelle/rxpermissions3/RxPermissionsFragment.kt:58-62 | dispatch appends to the publication log exactly the channels of the names before the stop index, in batch order, and the log still holds exactly the channels that have published |
| `Fragment.DispatchLogsFreshChannels` | lib/src/main/java/com/tbruyelle/rxpermissions3/RxPermissionsFragment.kt:47-64 | a fully resolved batch on consecutive fresh channels base, base+1, ... publishes channel base+j as the j-th entry after the earlier log |
| `Fragment.DispatchStopsAtRepeat` | lib/src/main/java/com/tbruyelle/rxpermissions3/RxPermissionsFragment.kt:52-58 | a name repeated in one batch is resolved at most once: dispatch stops at its second occurrence at the latest |
| `Fragment.RationaleFlags` | lib/src/main/java/com/tbruyelle/rxpermissions3/RxPermissionsFragment.kt:39-42 | the rationale array has one entry per name, entry i being the platform's answer for permissions[i] |
| `Fragment.PermissionsFragment.constructor` | lib/src/main/java/com/tbruyelle/rxpermissions3/RxPermissionsFragment.kt:20 | a new fragment has an empty registry, nothing published, an empty publication log, no prompts, and satisfies the invariant |
| `Fragment.PermissionsFragment.GetSubjectByPermission` | lib/src/main/java/com/tbruyelle/rxpermissions3/RxPermissionsFragment.kt:78 | the registered channel for the name, or null iff it has no entry |
| `Fragment.PermissionsFragment.ContainsByPermission` | lib/src/main/java/com/tbruyelle/rxpermissions3/RxPermissionsFragment.kt:80 | true iff the lookup is non-null |
| `Fragment.PermissionsFragment.SetSubjectForPermission` | lib/src/main/java/com/tbruyelle/rxpermissions3/RxPermissionsFragment.kt:82-84 | afterwards the lookup gives the new channel and the name is contained; every other name's lookup is unchanged |
| `Fragment.PermissionsFragment.CreateSubject` | lib/src/main/java/com/tbruyelle/rxpermissions3/RxPermissions.kt:208 | the new channel takes the current counter value and the counter advances by one, so (with the invariant) no earlier channel has that identity |
| `Fragment.PermissionsFragment.RequestPermissions` | lib/src/main/java/com/tbruyelle/rxpermissions3/RxPermissionsFragment.kt:28-31 | exactly one prompt, carrying the given names, is added to the prompt log |
| `Fragment.PermissionsFragment.OnRequestPermissionsResult` | lib/src/main/java/com/tbruyelle/rxpermissions3/RxPermissionsFragment.kt:47-64 | the loop, with its early return, leaves the registry, the published values and the publication order as the dispatch specification says, and keeps the invariant |
| `Fragment.PermissionsFragment.OnPlatformRequestPermissionsResult` | lib/src/main/java/com/tbruyelle/rxpermissions3/RxPermissionsFragment.kt:33-45 | a request code other than 42 changes nothing; otherwise the batch is dispatched with the rationale flags read from the platform |
| `RxPermissionsCore.IsGranted` | lib/src/main/java/com/tbruyelle/rxpermissions3/RxPermissions.kt:260-262 | before API level M every name counts as granted; from M on, a name is granted iff the platform reports it granted |
| `RxPermissionsCore.IsRevoked` | lib/src/main/java/com/tbruyelle/rxpermissions3/RxPermissions.kt:270-272 | before API level M no name is revoked; from M on, a name is revoked iff the platform reports it revoked by policy |
| `RxPermissionsCore.BeforeMarshmallow` | lib/src/main/java/com/tbruyelle/rxpermissions3/RxPermissions.kt:260-272 | before API level M every name counts as granted and none as revoked |
| `RxPermissionsCore.Step` | lib/src/main/java/com/tbruyelle/rxpermissions3/RxPermissions.kt:189-211 | handling one name appends exactly one slot, for that name; the registry only grows; the counter advances exactly when the name joins the prompt list |
| `RxPermissionsCore.PlanOf` | lib/src/main/java/com/tbruyelle/rxpermissions3/RxPermissions.kt:183-211 | handling all names gives one slot per name; the registry only grows; the counter advances by the length of the prompt list |
| `RxPermissionsCore.StepKeepsSlots` | lib/src/main/java/com/tbruyelle/rxpermissions3/RxPermissions.kt:189-211 | handling one more name leaves the earlier slots unchanged |
| `RxPermissionsCore.StepRegistersNew` | lib/src/main/java/com/tbruyelle/rxpermissions3/RxPermissions.kt:205-209 | a name that needs a prompt and has no entry waits on the next fresh channel |
| `RxPermissionsCore.StepPrompt` | lib/src/main/java/com/tbruyelle/rxpermissions3/RxPermissions.kt:205-207 | a name joins the prompt list iff it needs a prompt and has neither an earlier entry nor a place in the list |
| `RxPermissionsCore.PlanShape` | lib/src/main/java/com/tbruyelle/rxpermissions3/RxPermissions.kt:189-212 | exactly one slot per requested name, in input order; one new channel per newly registered name |
| `RxPermissionsCore.PlanSlots` | lib/src/main/java/com/tbruyelle/rxpermissions3/RxPermissions.kt:192-211 | a granted name gives Permission(name, true, false); a revoked, ungranted one gives Permission(name, false, false); any other name waits on its registered channel |
| `RxPermissionsCore.PlanRegistry` | lib/src/main/java/com/tbruyelle/rxpermissions3/RxPermissions.kt:203-211 | existing entries keep their channel; exactly the newly registered names are added, each on a fresh channel; nothing is removed |
| `RxPermissionsCore.PlanPrompt` | lib/src/main/java/com/tbruyelle/rxpermissions3/RxPermissions.kt:203-217 | the prompt list = names that need a prompt and have no entry, each once, in order of first occurrence |
| `RxPermissionsCore.PromptListIsNew` | lib/src/main/java/com/tbruyelle/rxpermissions3/RxPermissions.kt:205-209 | the prompt list has no duplicates, and none of its names had an entry or is granted or revoked |
| `RxPermissionsCore.PlanAllGranted` | lib/src/main/java/com/tbruyelle/rxpermissions3/RxPermissions.kt:192-196 | when every name is granted, all slots are immediate granted outcomes, and nothing is registered or prompted |
| `RxPermissionsCore.PlanBeforeMarshmallow` | lib/src/main/java/com/tbruyelle/rxpermissions3/RxPermissions.kt:260-262 | before API level M, nothing is registered or prompted and every slot is granted |
| `RxPermissionsCore.PlanKeepsInvariant` | lib/src/main/java/com/tbruyelle/rxpermissions3/RxPermissions.kt:203-211 | a request keeps the registry invariant, and no slot waits on a channel that has already published |
| `RxPermissionsCore.SecondRequestSharesPrompt` | lib/src/main/java/com/tbruyelle/rxpermissions3/RxPermissions.kt:203-217 | a second request for a pending name prompts for nothing and waits on the first request's channel |
| `RxPermissionsCore.RepeatedRequestPromptsNothing` | lib/src/main/java/com/tbruyelle/rxpermissions3/RxPermissions.kt:203-217 | after a request every name that needed a prompt has an entry, so the same request run again prompts for nothing |
| `RxPermissionsCore.RegistryUnchangedWithoutPrompt` | lib/src/main/java/com/tbruyelle/rxpermissions3/RxPermissions.kt:203-211 | a request that prompts for nothing leaves the registry and the counter unchanged |
| `RxPermissionsCore.RepeatedRequestReusesPlan` | lib/src/main/java/com/tbruyelle/rxpermissions3/RxPermissions.kt:189-217 | the same request run again with no answer in between gives the same slots and registers and prompts for nothing |
| `RxPermissionsCore.PlanChannelsBelow` | lib/src/main/java/com/tbruyelle/rxpermissions3/RxPermissions.kt:203-211 | every waiting slot waits on a channel older than the counter after the request |
| `RxPermissionsCore.PlanFirstOccurrenceIsNewest` | lib/src/main/java/com/tbruyelle/rxpermissions3/RxPermissions.kt:203-211 | the first slot of a name that had no entry waits on a channel newer than the channel of every earlier waiting slot |
| `RxPermissionsCore.RepeatSharesChannel` | lib/src/main/java/com/tbruyelle/rxpermissions3/RxPermissions.kt:203-211 | in a request with no pending name, a repeated name that needs a prompt waits on the same channel at each occurrence |
| `RxPermissionsCore.NewNamesWaitInPromptOrder` | lib/src/main/java/com/tbruyelle/rxpermissions3/RxPermissions.kt:203-211 | in a request with no pending name, exactly the names that need a prompt wait, each on the channel of its place in the prompt list |
| `RxPermissionsCore.NewChannelsInPromptOrder` | lib/src/main/java/com/tbruyelle/rxpermissions3/RxPermissions.kt:205-209 | each name a request registered has the channel nextChannel + j, j being its place in the prompt list |
| `RxPermissionsCore.Concat` | lib/src/main/java/com/tbruyelle/rxpermissions3/RxPermissions.kt:219 | the concatenated output is complete iff every awaited channel has published; it then has one entry per slot |
| `RxPermissionsCore.ConcatHead` | lib/src/main/java/com/tbruyelle/rxpermissions3/RxPermissions.kt:219 | the first slot contributes its outcome (or its channel's value if it published after the subscription), and the rest is subscribed from after that point |
| `RxPermissionsCore.ConcatCharacterised` | lib/src/main/java/com/tbruyelle/rxpermissions3/RxPermissions.kt:219 | an immediate slot contributes its outcome; a waiting slot contributes its channel's value iff the channel published after the request and after the channel of every earlier waiting slot |
| `RxPermissionsCore.ConcatOfOrderedChannels` | lib/src/main/java/com/tbruyelle/rxpermissions3/RxPermissions.kt:219 | when the awaited channels published after the request in the order of their identities, a waiting slot contributes iff its channel is newer than every earlier waiting slot's channel |
| `RxPermissionsCore.Emitted` | lib/src/main/java/com/tbruyelle/rxpermissions3/RxPermissions.kt:219 | the emitted stream holds exactly the values the slots contribute and is no longer than the slot list; no slots emit nothing, and one slot emits its value or nothing |
| `RxPermissionsCore.EmittedAppend` | lib/src/main/java/com/tbruyelle/rxpermissions3/RxPermissions.kt:219 | the stream of consecutive slots is the first part's stream followed by the second's, so values keep slot order and appear once per contributing slot |
| `RxPermissionsCore.ImmediateSlotsPassThrough` | lib/src/main/java/com/tbruyelle/rxpermissions3/RxPermissions.kt:192-201 | once the output is complete, each granted or revoked name contributes its immediate outcome at its own position |
| `RxPermissionsCore.EnsureReduce` | lib/src/main/java/com/tbruyelle/rxpermissions3/RxPermissions.kt:91-103 | an empty buffer emits nothing; otherwise one value, true iff every outcome is granted |
| `RxPermissionsCore.EnsureEachCombinedReduce` | lib/src/main/java/com/tbruyelle/rxpermissions3/RxPermissions.kt:130-135 | an empty buffer emits nothing; otherwise one combined outcome (joined names, AND of granted, AND of rationale) |
| `RxPermissionsCore.EnsureIsCombinedGranted` | lib/src/main/java/com/tbruyelle/rxpermissions3/RxPermissions.kt:88-135 | for a non-empty buffer, the boolean shape is the granted flag of the combined shape |
| `RxPermissionsCore.AllGrantedEnsuresTrue` | lib/src/main/java/com/tbruyelle/rxpermissions3/RxPermissions.kt:189-219 | if every name is granted: no prompt, registry unchanged, the concatenated output is complete at once, and `ensure` yields [true] |
| `RxPermissionsCore.RevokedEnsuresFalse` | lib/src/main/java/com/tbruyelle/rxpermissions3/RxPermissions.kt:198-201 | with a revoked, ungranted name, once the concatenated output is complete `ensure` yields [false] |
| `RxPermissionsCore.PromptIsFullyDispatched` | lib/src/main/java/com/tbruyelle/rxpermissions3/RxPermissions.kt:203-216 | the answer to a request's prompt is dispatched in full: no name of the prompt list stops the batch |
| `RxPermissionsCore.AnswerPublishesPrompted` | lib/src/main/java/com/tbruyelle/rxpermissions3/RxPermissions.kt:203-216 | once the prompt is answered, every prompted name has left the registry and its channel nextChannel + j has published that name's outcome |
| `RxPermissionsCore.AnswerLogPositions` | lib/src/main/java/com/tbruyelle/rxpermissions3/RxPermissions.kt:203-216 | once the prompt is answered, the channel of the j-th prompted name is the j-th publication after the request |
| `RxPermissionsCore.AnsweredChannelsInOrder` | lib/src/main/java/com/tbruyelle/rxpermissions3/RxPermissions.kt:203-219 | in a request with no pending name, the awaited channels published after the request in the order of their identities |
| `RxPermissionsCore.AnsweredSlotByChannel` | lib/src/main/java/com/tbruyelle/rxpermissions3/RxPermissions.kt:219 | in a request with no pending name, the answered output is complete, and a waiting slot contributes iff its channel is newer than every earlier waiting slot's channel |
| `RxPermissionsCore.AnsweredRepeatSlot` | lib/src/main/java/com/tbruyelle/rxpermissions3/RxPermissions.kt:219 | a later occurrence of a prompted name contributes nothing: it subscribes to a channel that has completed |
| `RxPermissionsCore.FirstSlotChannel` | lib/src/main/java/com/tbruyelle/rxpermissions3/RxPermissions.kt:203-211 | in a request with no pending name, the first occurrence of a name that needs a prompt waits on channel nextChannel + j, j being the name's place in the prompt list |
| `RxPermissionsCore.AnsweredFirstSlot` | lib/src/main/java/com/tbruyelle/rxpermissions3/RxPermissions.kt:203-219 | once the prompt is answered, the first occurrence of a prompted name contributes the outcome at the name's place in the prompt list: the platform's grant result and rationale flag for it |
| `RxPermissionsCore.LaterSlotMissesEarlierChannel` | lib/src/main/java/com/tbruyelle/rxpermissions3/RxPermissions.kt:219 | when the channel of a later slot published before the channel of an earlier slot, the later slot contributes nothing |
| `RxPermissionsCore.PendingAnswerBeforeSubscriptionIsLost` | lib/src/main/java/com/tbruyelle/rxpermissions3/RxPermissions.kt:203-219 | a second request for A and B, with B pending from a first request and B denied before A is answered, outputs A's outcome alone, and `ensure` yields [true] |
| `RxPermissionsCore.AnsweredRequestOutput` | lib/src/main/java/com/tbruyelle/rxpermissions3/RxPermissions.kt:203-219 | in a request with no pending name, the answered output is complete with one entry per name: a granted or revoked name gives its immediate outcome, a prompted name gives, at its first occurrence, the outcome at its place in the prompt list, and nothing at a repeat |
| `RxPermissionsCore.RunsOf` | lib/src/main/java/com/tbruyelle/rxpermissions3/RxPermissions.kt:163-166 | a series of runs of one request gives one output per run, each with one slot per name |
| `RxPermissionsCore.RunsNames` | lib/src/main/java/com/tbruyelle/rxpermissions3/RxPermissions.kt:163-166 | every run of the series gives one slot per name, in input order |
| `RxPermissionsCore.RunsRepeatFirst` | lib/src/main/java/com/tbruyelle/rxpermissions3/RxPermissions.kt:163-166 | every run after the first repeats the first: same slots, same registry, counter and prompt log as after the first run |
| `RxPermissionsCore.Pending` | lib/src/main/java/com/tbruyelle/rxpermissions3/RxPermissions.kt:169-175 | one trigger iff every requested name has an entry; none otherwise |
| `RxPermissionsCore.OneOf` | lib/src/main/java/com/tbruyelle/rxpermissions3/RxPermissions.kt:177-180 | one emission without a trigger stream; otherwise the trigger's emissions plus the pending ones |
| `RxPermissionsCore.ShouldShowRequestPermissionRationaleImplementation` | lib/src/main/java/com/tbruyelle/rxpermissions3/RxPermissions.kt:243-245 | true iff every name is granted or would show a rationale (true for no names) |
| `RxPermissionsCore.ShouldShowRequestPermissionRationale` | lib/src/main/java/com/tbruyelle/rxpermissions3/RxPermissions.kt:237-241 | false before API level M; otherwise true iff every name is granted or would show a rationale |
| `RxPermissionsCore.RxPermissions.RequestImplementation` | lib/src/main/java/com/tbruyelle/rxpermissions3/RxPermissions.kt:183-220 | the loop gives the specified slots, registry and counter; published values and their order are untouched; one prompt is logged iff some name was newly registered, carrying exactly those names; keeps the invariant |
| `RxPermissionsCore.RxPermissions.Request` | lib/src/main/java/com/tbruyelle/rxpermissions3/RxPermissions.kt:163-180 | an empty list is rejected with no effect; otherwise one run per trigger emission (one without a trigger stream, else the trigger's emissions plus the pending gate, evaluated on the registry before the call); the outputs, registry, counter and prompt log are those of `RunsOf`, and each output has one slot per name in order |
| `RxPermissionsCore.RxPermissions.OnRequestPermissionsResult` | lib/src/main/java/com/tbruyelle/rxpermissions3/RxPermissions.kt:277-279 | dispatches the batch with every rationale flag false; the prompt log and the counter are unchanged |

## Left out

- RxJava operators (`buffer`, `merge`, `flatMap`) and subscription timing outside one request are not modelled. The output of a request (`concat`) is modelled over the publication log, as if it were subscribed when the request is made; only its completed form is given (`Concat` is None while a channel is still silent).
- `RxPermissionsCore.RxPermissions.Request` runs the request once per trigger emission, back to back, with no answer dispatched between runs (`RunsOf`). An answer arriving between two emissions removes entries, so a later run would prompt again; that interleaving is not modelled.
- `RxPermissionsCore.OneOf` counts emissions only. The interleaving of the merged trigger and pending streams is not modelled.
- The public transformers and one-shot entry points (`ensure`, `ensureEach`, `ensureEachCombined`, `request`, `requestEach`, `requestEachCombined`, lib/src/main/java/com/tbruyelle/rxpermissions3/RxPermissions.kt:88-161) are not separate members. They only chain `Request` with `buffer` and the two reductions.
- `RxPermissionsCore.AnsweredRequestOutput` gives the output in closed form only for a request none of whose names was pending before. A request sharing a pending name with an earlier request is described by `ConcatCharacterised` in terms of the publication log, not in closed form.
- Concurrency is not modelled: the `@Synchronized` lazy fragment getter, races between callers, and re-entrant requests fired from inside `onNext`. The model is sequential. Removal before publication is kept as the order of the two updates.
- Not modelled (Android plumbing): fragment lookup and creation (`getRxPermissionsFragment`, `findRxPermissionsFragment`, `commitNow`), `retainInstance`, logging (`log`, `setLogging`, `Log.e`) and `toString`.
- Platform calls (`checkSelfPermission`, `isPermissionRevokedByPolicy`, `shouldShowRequestPermissionRationale`, the SDK level) become fields of `Host`. They are assumed stable during one call. `requestPermissions(…, 42)` becomes an entry in the `prompts` log.
- `Permissions.Equals`: the other object is modelled as a possibly-null Permission. Comparison with an object of another class (always false) and the identity shortcut (`this === o`, implied by field equality) are not represented.
- `Permissions.HashCode`: `String.hashCode` treats each character as one UTF-16 unit. Characters outside the Basic Multilingual Plane, which Java hashes as two units, are not modelled.
- `Fragment.PermissionsFragment.OnRequestPermissionsResult`, `Fragment.PermissionsFragment.OnPlatformRequestPermissionsResult` and the public `RxPermissionsCore.RxPermissions.OnRequestPermissionsResult` require the grant-code (and rationale) arrays to be as long as the name array, as the platform guarantees. A caller of the public method can pass shorter arrays. With a shorter grant array the library would remove the entry and then throw an index exception; that path is not modelled.
- Channel identities come from a counter kept next to the registry. Object identity of `PublishSubject` instances is not modelled.
- `sample/src/main/java/com/tbruyelle/rxpermissions3/sample/MainActivity.java` is demo UI and is not part of this model.
