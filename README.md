# Minecraft server status monitor — a Dafny model

The bot polls one Minecraft server every 60 seconds and posts `@everyone` embeds to a
Discord channel. This project models its status-monitor state machine and proves
properties of it.

The state is three fields of `MinecraftBot`:
- `server_was_online`: unknown, online or offline.
- `maintenance_mode`: a flag.
- `check_count`: a counter.

Two operations change that state:
- One polling tick, `check_server_status`.
- The `/maintenance` toggle.

`/status` only reads it; the probe `check_server` does not touch it.

Files and modules:
- `wrappers.dfy` (`Wrappers`): `Option`, standing for Python's `None`-or-value.
- `probe.dfy` (`Probe`): the outcome of the server lookup, and `CheckServer`.
- `notices.dfy` (`Notices`): the four embeds a tick can build, and `Transition`. `Transition` chooses between them from the recorded state and the probe.
- `monitor.dfy` (`Monitor`): the state as a value (`MonitorState`) and the specification functions of one tick (`NextState`, `Attempted`) and of the toggle (`Toggled`). It also holds the class `MinecraftBot`, whose fields the methods update in place. Each method is proved against those functions.
- `runs.dfy` (`Runs`): arbitrary sequences of ticks and toggles, with inductive lemmas about the counter, the flag, the recorded state and what is sent.
- `scenarios.dfy` (`Scenarios`): short histories of a fresh bot, driven through the class's methods.

The collaborators of a tick are inputs:
- whether `bot.get_channel` found the channel;
- what the lookup did: replied with `(online, max)` players, or raised;
- whether `channel.send` returned normally or raised.

A tick returns two things:
- the embed it handed to `channel.send`, if any, as a kind (`InitialOnline`, `InitialOffline`, `WentOffline`, `BackOnline`) plus the players field, which only the online kinds carry;
- whether the send went through.

Three behaviours of the code are worth stating up front:
- The first tick sends an announcement unless maintenance mode is on, so the scenario `OutageAndRecovery` expects one from tick 1.
- A missing channel returns right after counting the tick. The tick does not probe and does not update `server_was_online` (`RecordIsLastObservation`).
- In maintenance mode the probe is recorded only on a first tick or on an edge. On every other tick it already equals the record (`NextState`).

## Model

| member | source | states |
|---|---|---|
| `Probe.CheckServer` | bot.py:38-46 | The probe is online exactly when the lookup replied, and then carries both player counts. Any exception gives `(False, None, None)`, so an offline result never carries counts. |
| `Notices.Transition` | bot.py:105-186 | With no record, an embed is always chosen: the online announcement if the probe is online, otherwise the offline one. With a record, an embed is chosen exactly when the probe differs from it. That embed is `BackOnline` when the probe is online and `WentOffline` when it is offline. The players field is present exactly on online embeds and holds the probe's counts. The embeds are built by the helpers `Embed` and `ShowsPlayers`. |
| `Monitor.NextState` | bot.py:92-186 | A tick adds one to the counter and never changes the flag. A missing channel leaves the record untouched. When the channel is found, the record afterwards equals the probe's reachability, whether or not maintenance mode is on. |
| `Monitor.Attempted` | bot.py:95-186 | A tick hands an embed to `send` exactly when three things hold: the channel is found, maintenance mode is off, and the probe differs from the record (or there is none). The embed handed over is the one `Transition` chooses. |
| `Monitor.Toggled` | bot.py:230 | `/maintenance` negates the flag and keeps the record and the counter. |
| `Monitor.MinecraftBot.constructor` | bot.py:26-28 | A new bot has an unknown record, maintenance off and zero checks. |
| `Monitor.MinecraftBot.Deliver` | bot.py:129-136 | In maintenance mode nothing is sent. Otherwise the embed is sent. A send that raises is reported as not delivered, and the exception does not escape. |
| `Monitor.MinecraftBot.CheckServerStatus` | bot.py:91-186 | The new fields are `NextState` of the old ones. The embed handed to `send` is `Attempted` of the old fields. It counts as delivered exactly when one was handed over and the send succeeded. The state update does not depend on the send's outcome. |
| `Monitor.MinecraftBot.Maintenance` | bot.py:228-249 | The fields become `Toggled` of the old ones. The reply is the "maintenance on" embed exactly when the new flag is on. |
| `Monitor.MinecraftBot.Status` | bot.py:196-221 | The `/status` reply is online exactly when the lookup replied. It shows players only then, with the lookup's counts. It reports the current check count, and shows the maintenance footer exactly when the flag is on. |
| `Runs.TicksAreCounted` | bot.py:92-98 | After any sequence of events, the counter has grown by exactly the number of ticks in it. Early returns on a missing channel count too. A sequence of N ticks adds N. |
| `Runs.FlagFollowsToggles` | bot.py:230 | After any sequence of events, the flag is the initial flag flipped once per toggle. An even number of toggles restores it, and ticks never change it. |
| `Runs.ToggleTwiceRestores` | bot.py:230 | Two toggles in a row give back the whole original state. |
| `Runs.RecordIsLastObservation` | bot.py:95-184 | After any sequence of events, the record equals the reachability seen by the last tick that found the channel, or the initial record if there was none. This holds in maintenance mode and after failed sends. |
| `Runs.RecordStaysKnown` | bot.py:106-108 | Once the record is known it never becomes unknown again. |
| `Runs.NoInitialOnceKnown` | bot.py:106-137 | Once the record is known, no later event hands a first-check announcement to `send`, so it is made at most once per process. |
| `Runs.MaintenanceSilences` | bot.py:129-184 | Starting in maintenance mode, a sequence of ticks with no toggle hands nothing to `send`. |
| `Runs.SendIffChanged` | bot.py:139-186 | After any history, a further tick sends exactly when the channel is found, the flag is off, and the probe differs from the last observation. An edge alert says which way the server went. So turning maintenance off never replays a transition it hid. |
| `Scenarios.OutageAndRecovery` | bot.py:91-186 | A run with reachability online, online, offline, offline, online sends the start-up announcement, then went-offline at tick 3, then back-online at tick 5. The count is 5. |
| `Scenarios.QuietMaintenance` | bot.py:91-230 | With maintenance on during an outage, no tick sends but the record reaches offline. After maintenance ends, an offline probe is quiet and the next online probe sends back-online. |
| `Scenarios.ChannelMissingAtStart` | bot.py:92-137 | A first tick without a channel sends nothing and leaves the record unknown. The next tick, with the channel, makes the offline announcement. |
| `Scenarios.LostAnnouncement` | bot.py:106-137 | A first announcement whose send raises is not delivered, yet the record commits. The next, unchanged, probe sends nothing, so the failed send is never retried. |

## Left out

- The Discord client: intents, command-tree registration and sync, the readiness wait before the first tick, and the 60-second `tasks.loop` schedule. These are framework plumbing. Ticks are modelled one after another as a sequence of events.
- The `mcstatus` lookup and status query. They are a foreign network call. Their outcome is the `Lookup` input.
- When the channel is missing, the real tick never calls the probe. The model still receives a `Lookup` on such ticks and ignores it.
- Embed colours, titles, descriptions, timestamps, the maintenance footer on channel embeds, and every `print`. These are presentation and logging. A channel embed with that footer is built only in maintenance mode, and then it is never sent.
- The `/ping` reply. Its only computation is the floating-point rounding of the client latency.
- `AllianceMenu` and `/alliance`. These are UI stubs with fixed texts.
- A `/maintenance` command that runs while a tick is suspended at an `await`. The model serialises the two operations.
- Python integers are unbounded, so `check_count` is a `nat` with no wrap-around.
