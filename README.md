# Vocal crews, modelled in Dafny

The vocal crews plugin runs in a chat-server bot. In every managed category of a guild it keeps
one "creator" voice channel. When a member joins the creator channel, that channel becomes a
"crew": it is renamed from the category's name pool, and a new creator channel is provisioned.
Empty voice channels in managed categories are swept. A `!i` command posts an invite to the
author's crew in an allowed alert channel; a later invite for the same pair replaces the earlier
message.

The plugin keeps four in-memory containers: managed categories per guild, creator channel ids,
used crew names per category, and the invite ledger. Here they are the fields of the class
`VocalCrews.Plugin`, next to a flag for the registered listeners and a log `actions` of every
REST call issued. Each logged call carries the error code its caller swallows, if any. A call the
plugin spawns as a separate task is executed where it is spawned, in spawn order.

Modules:

- `Wrappers`: `Option`, `Result`, `Outcome`.
- `Collections`: the elements of a sequence, duplicate-freedom, cardinality facts.
- `Discord`: identifiers, the guild snapshot (channel map and voice states), REST calls, the
  exceptions, and `AllowApiException`.
- `NamePool`: drawing a crew name and recycling the used set.
- `InviteLedger`: the voice channel → alert channel → message map.
- `Sweeps`: occupancy, the two channel selections to delete, and the search for a user's voice
  state.
- `VocalCrews`: the plugin class and its handlers.

Two behaviours of the plugin worth stating:

- The voice-state and channel-delete listeners are registered once, when the first guild at all
  is set up, that is when `known_guilds` was empty before the call (plugins/vocal_crews.py:127, 154-156).
- The invite command checks the author's category against the configured category ids, not
  against the categories managed in that guild (plugins/vocal_crews.py:181, 185).

## Model

| member | source | states |
|---|---|---|
| Discord.AllowApiException | plugins/vocal_crews.py:21-27 | the call passes exactly when it returned or raised the one tolerated code; any other code comes back as that API error |
| NamePool.Take | plugins/vocal_crews.py:39-41 | the used set gains the drawn name, and is emptied exactly when it then holds as many names as the list is long |
| NamePool.TakeWithinPool | plugins/vocal_crews.py:37-41 | drawing an available name keeps the used set inside the pool and, unless empty, smaller than the list |
| NamePool.NeverExhausted | plugins/vocal_crews.py:37-38 | with a non-empty list of distinct names, the available set is never empty, so `random.choice` cannot fail |
| NamePool.RepeatedNeverClears | plugins/vocal_crews.py:39-41 | with a repeated name in the list, a draw never clears the used set: it only grows by the drawn name |
| NamePool.RepeatedNameExhausts | plugins/vocal_crews.py:37-41 | with a repeated name in the list, once as many draws as there were available names have been made, the used set is the whole pool and nothing is available, so the next `random.choice` raises |
| NamePool.RunDistinct | plugins/vocal_crews.py:34-41 | consecutive draws that do not fill the pool are pairwise distinct and new; the used set is then exactly the names drawn |
| NamePool.FullRunClears | plugins/vocal_crews.py:39-41 | draws that together fill the pool leave the used set empty |
| VocalCrews.Plugin.constructor | plugins/vocal_crews.py:11-14 | all four containers start empty, no listener is registered and no call has been issued |
| VocalCrews.Plugin.AllocateName | plugins/vocal_crews.py:34-41 | the category's used set is created on first use; the result is a name that is in the pool and not in the used set, recorded via `Take`, or `IndexError` when none is available; used sets stay within their pools |
| VocalCrews.Plugin.CreateCrewChannel | plugins/vocal_crews.py:29-30 | a channel that is not a creator raises `KeyError` and changes nothing; otherwise it leaves the creator set, and the name draw, rename and log follow |
| VocalCrews.Plugin.NameCrew | plugins/vocal_crews.py:31-54 | a missing parent raises `AttributeError`; otherwise a name is drawn and the channel renamed with the formatter and the clock, logged only when the log channel is in the guild; it always succeeds for a distinct, non-empty pool |
| VocalCrews.Plugin.CreateCreatorChannel | plugins/vocal_crews.py:57-63 | one voice channel is created in the category with the configured name and size, exactly its id is added to the creator set, and it is moved to position 1 |
| Sweeps.HasOccupant | plugins/vocal_crews.py:75-79 | the early-exit scan answers true exactly when some voice state is in the channel |
| VocalCrews.Plugin.CleanEmptyChannels | plugins/vocal_crews.py:65-84 | an unknown guild issues nothing; otherwise exactly the channels of `SweepTargets` are deleted, once each, each swallowing only code 10003 |
| Sweeps.SweepIsInitSweepWithoutCreators | plugins/vocal_crews.py:70-79 | a channel is swept exactly when it is not a creator and the first-seen sweep of some managed category would delete it |
| Sweeps.OccupiedNeverSwept | plugins/vocal_crews.py:73-80 | a channel named by some voice state is never selected by either sweep |
| Sweeps.OnlyEmptyChannelSwept | plugins/vocal_crews.py:70-84 | in a category holding an empty and an occupied voice channel, only the empty one is selected |
| VocalCrews.Plugin.SweepUnknownChannels | plugins/vocal_crews.py:135-152 | every unoccupied voice channel under the category is deleted once, creators included, with no error swallowed |
| VocalCrews.Plugin.SetUpCategories | plugins/vocal_crews.py:132-153 | each managed category is visited once; its sweep is followed by one creator channel, and the creator set grows by exactly the creator id of each category |
| VocalCrews.InitCreatesOneCreatorPerCategory | plugins/vocal_crews.py:132-153 | the calls of a guild setup create exactly one voice channel per managed category, in visiting order |
| VocalCrews.Plugin.OnGuildCreate | plugins/vocal_crews.py:123-156 | a known guild is a no-op; otherwise the guild's managed categories become its channel ids intersected with the configured ones, each is set up, and listeners are registered exactly when no guild was known before |
| VocalCrews.Plugin.JoinCreator | plugins/vocal_crews.py:159-161 | the crew creation runs, then a replacement creator is made in the joined channel's category when it has one |
| VocalCrews.Plugin.OnVoiceStateUpdate | plugins/vocal_crews.py:158-162 | a crew is created exactly when the joined channel is a creator; a creator that is no longer in the guild raises `AttributeError` before anything else; otherwise the empty-channel sweep always follows |
| InviteLedger.RecordInvite | plugins/vocal_crews.py:116 | the pair now maps to the new message, its inner map created first when missing (lines 93-94); every other entry of the ledger is unchanged |
| InviteLedger.DropChannel | plugins/vocal_crews.py:166-168 | the voice channel's whole entry is gone; every other key keeps its entry |
| InviteLedger.ResendReplaces | plugins/vocal_crews.py:93-116 | a second alert for a pair finds the first message to delete, and the ledger ends as if only the second had been sent |
| VocalCrews.Plugin.SendAlert | plugins/vocal_crews.py:86-121 | a voice channel gone from the guild is a no-op; an earlier message for the pair is deleted first, swallowing only 10008, and any other code aborts with the ledger untouched; otherwise the new message replaces it in the ledger |
| VocalCrews.Plugin.OnChannelDelete | plugins/vocal_crews.py:164-176 | the deleted channel's entry leaves the ledger, and one delete swallowing only 10008 is issued per recorded (alert channel, message) pair |
| Sweeps.FindVoiceState | plugins/vocal_crews.py:182-184 | the scan stops at the author's first voice state, or reports that there is none |
| VocalCrews.Plugin.OnInviteCommand | plugins/vocal_crews.py:178-191 | the command message is always deleted first, swallowing 10008; an alert is sent exactly when the author's first voice state is in a configured category and the command channel is in that category's allowed list; the alert succeeds, and records its message, unless an earlier message for the pair exists and deleting it fails with a code other than 10008 |

## Left out

- Plugin start-up (`load`) and the `enabled` switch: the model starts with the listeners
  unregistered and handles events directly.
- Configuration lookup: the per-category value with its global fallback is taken as already
  resolved in `Settings`.
- Formatting and logging: the name formatter is an uninterpreted function, message texts are
  tags (`MessageKind`), and `logging` and `datetime` are not modelled.
- `random.choice` is a nondeterministic pick of an available name. `time.time()` is the `now`
  parameter.
- New channel and message ids are parameters: `creatorIdFor`, `newCreator`, `message`.
- Only the inline delete of the previous invite in `send_alert` has an outcome parameter, because
  its outcome changes the flow. Every other REST call is logged with the code it tolerates and is
  assumed to return.
- Failures of `create_invite` and `send_message` are not modelled.
- gevent concurrency: spawned tasks run to completion where they are spawned, in order. An
  exception inside a spawned task ends only that task.
- Iteration order over sets and dicts is not fixed. Each loop picks any remaining element, and
  ghost results report the order used.
- The class-level containers are shared by all instances of the plugin class in the Python code; the model has one
  instance.
- The "at most one creator channel per managed category" invariant is not tracked: guild
  set-up creates a creator without removing earlier ones.
- The two `disco-raven` process supervisors are not part of this model; they hold no plugin
  logic.
- VocalCrews.Plugin.OnInviteCommand: when an alert is sent, the calls it adds after the command
  delete are stated by `SendAlert`'s contract, not repeated here.
- VocalCrews.Plugin.SendAlert: the voice channel's category is passed in, not resolved from its
  parent.
