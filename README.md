# Live-session playback engine, channel protocol and route gate

This project is a Dafny model of three parts of a live-coaching web application:

- **The audio playback engine** (`Audio`, from `src/lib/realtime/audioEngine.ts`). This is the client-side state machine that plays a session's audio and follows the coach's playhead. The class `Audio.AudioEngine` has the engine's fields:
  - `audio` is the media element, or `None` once the engine has been destroyed.
  - `callbacks` is the subscriber set.
  - `updateInterval` is the handle of the position-refresh timer.
  - `state` is the `_state` record.

  The browser media element becomes the `Element` record: source, playback position, paused flag, and volume as a fraction. Each media event the engine listens to is a method, called in the order the platform would fire it: `OnLoadedMetadata`, `OnPlay`, `OnPause`, `OnEnded`, `OnError`, `OnTimeUpdate`, and `IntervalTick` for the timer callback. The element's own progress is the method `ElementPlayback`; no engine code runs there. Three more parts of the platform also become explicit:
  - `liveTimers` is the set of intervals the platform keeps running.
  - `notified` records every call made to a subscriber, in order.
  - The clock and the outcome of the element's play request are parameters.

  The drift correction of `syncWithRemote` is stated by two pure functions. `SeekDecision` says where the element is sent, if anywhere. `PlayPauseRequest` says whether the element is asked to play or to pause.
- **The realtime channel protocol** (`SessionEvents`, from `src/lib/realtime/events.ts`). This covers the nine event identifiers, the payload records, and the channel-name encoder `presence-session-{id}` with its decoder. The decoder is the anchored regular expression `^presence-session-(.+)$`, stated directly: the name must start with the prefix, and what follows must be a non-empty run of characters other than `\n`, `\r`, U+2028 and U+2029.
- **The route gate of the request middleware** (`RouteGuard`, from `middleware.ts`). It maps a pathname and the request's token (`None`, or a token with a role string) to `Next` or `Redirect(path, callbackUrl)`. `Middleware` follows the source's chain of prefix tests and early returns. `Policy` is an independent table indexed by route family, and `MiddlewareFollowsPolicy` proves that the two decide alike on every input.

Times and volumes are mathematical reals. Timestamps and `now` are integer epoch milliseconds.

## Where the design and the code differ

The model follows the code in every case below.

- The design clamps the network latency at zero. The code does not: a `serverTimestamp` later than `now` projects the remote time backwards (`Audio.ProjectedRemoteTime`).
- The deadband is measured from the element's position, not from `state.currentTime` (`Audio.AudioEngine.SyncWithRemote`).
- The design says `currentTime` is clamped into `[0, duration]` on every write. `timeupdate` and the interval tick copy the element position unclamped.
- The design says `isPlaying` holds only while loaded. `load` keeps `isPlaying` and the running interval, so playing-and-not-loaded is reachable (`Audio.ReloadWhilePlaying`).
- `setVolume` and `pause` do nothing once the element is gone. They do not need the track to be loaded.
- The design says no subscriber is called after `destroy`. When the engine is destroyed, every existing subscriber is dropped and the timer is stopped (`Audio.DestroyIsTerminal`). But `subscribe` itself has no guard: a subscriber added afterwards is still called at once. The `play`, `pause`, `ended` and `error` handlers stay registered and still update `state`: nothing removes them.

## Model

| member | source | states |
|---|---|---|
| `Audio.ClampSeek` | src/lib/realtime/audioEngine.ts:157 | the seek position is never negative, never past a non-negative duration, equals the request inside the track, 0 below it and the duration above it |
| `Audio.ClampVolume` | src/lib/realtime/audioEngine.ts:169 | the volume lies in [0, 100], equals the request inside that range, 0 below and 100 above |
| `Audio.ProjectedRemoteTime` | src/lib/realtime/audioEngine.ts:183-187 | a paused remote is taken as is; a playing one is moved by the transit time in seconds, forwards for a past timestamp and backwards for a future one (no clamping) |
| `Audio.SeekDecision` | src/lib/realtime/audioEngine.ts:183-193 | a seek happens if and only if the element is more than 0.5 s from the projected remote time, and then goes to that time clamped into the track |
| `Audio.PlayPauseRequest` | src/lib/realtime/audioEngine.ts:196-200 | play is requested if and only if the remote plays and the element is paused; pause if and only if the remote is paused and the element plays |
| `Audio.PlayStateFollowsRemote` | src/lib/realtime/audioEngine.ts:195-200 | after the request, the element plays exactly when the remote does, whatever the deadband did, unless a play request was refused |
| `Audio.DriftExamples` | src/lib/realtime/audioEngine.ts:179-193 | 0.2 s of drift is ignored; 15 s of drift is corrected; 2 s of latency moves a playing remote from 100 to 102; a projected time past the end is clamped to the duration |
| `Audio.WithCallback` | src/lib/realtime/audioEngine.ts:214 | adding keeps the set a set, keeps the existing order, and the members are the old ones plus the new one |
| `Audio.WithoutCallback` | src/lib/realtime/audioEngine.ts:220 | removing leaves exactly the other members, keeps the set a set, and removing an absent member changes nothing |
| `Audio.SubscribeThenUnsubscribe` | src/lib/realtime/audioEngine.ts:213-222 | calling the handle of a new subscription restores the subscriber set exactly as it was before |
| `Audio.Fanout` | src/lib/realtime/audioEngine.ts:227-230 | a notification round calls every subscriber once, in registration order, all with the same snapshot |
| `Audio.AudioEngine.AtMostOneTimer` | src/lib/realtime/audioEngine.ts:90-106 | while the engine's invariant holds, at most one interval runs, and it is the one whose handle the engine holds |
| `Audio.AudioEngine.constructor` | src/lib/realtime/audioEngine.ts:25-43 | a new engine has an element, the initial state (volume 80, nothing loaded), no subscribers and no timer |
| `Audio.AudioEngine.NotifyCallbacks` | src/lib/realtime/audioEngine.ts:227-230 | the calls recorded grow by exactly one fan-out of the current state |
| `Audio.AudioEngine.StopUpdateInterval` | src/lib/realtime/audioEngine.ts:101-106 | afterwards no handle is held and no interval runs |
| `Audio.AudioEngine.StartUpdateInterval` | src/lib/realtime/audioEngine.ts:90-99 | any previous interval is cleared, and the only running interval is the new one whose handle is held |
| `Audio.AudioEngine.OnLoadedMetadata` | src/lib/realtime/audioEngine.ts:52-57 | sets the duration, marks the track loaded and clears the error, then notifies; nothing happens when the element is gone |
| `Audio.AudioEngine.OnPlay` | src/lib/realtime/audioEngine.ts:59-63 | marks playing, restarts the refresh interval, then notifies |
| `Audio.AudioEngine.OnPause` | src/lib/realtime/audioEngine.ts:65-69 | marks not playing, stops every interval, then notifies |
| `Audio.AudioEngine.OnEnded` | src/lib/realtime/audioEngine.ts:71-76 | marks not playing, sets the position to the duration, stops every interval, then notifies |
| `Audio.AudioEngine.OnError` | src/lib/realtime/audioEngine.ts:78-83 | records the load error and marks the track not loaded, then notifies |
| `Audio.AudioEngine.OnTimeUpdate` | src/lib/realtime/audioEngine.ts:85-87 | copies the element position, unclamped, without notifying |
| `Audio.AudioEngine.IntervalTick` | src/lib/realtime/audioEngine.ts:93-98 | a cleared interval changes nothing; a running one copies the element position unclamped and notifies, while an element is attached |
| `Audio.AudioEngine.Load` | src/lib/realtime/audioEngine.ts:115-126 | sets loaded false, error none, position 0 and duration 0; keeps volume and the playing flag; points the element at the url, at 0 and paused; notifies. Nothing happens without an element |
| `Audio.AudioEngine.Play` | src/lib/realtime/audioEngine.ts:131-141 | nothing happens unless attached and loaded; an accepted request un-pauses the element; a refused one records the fixed play error and notifies, and leaves the element paused |
| `Audio.AudioEngine.Pause` | src/lib/realtime/audioEngine.ts:146-149 | pauses an attached element, without requiring a loaded track; nothing else changes |
| `Audio.AudioEngine.Seek` | src/lib/realtime/audioEngine.ts:154-161 | when attached and loaded, the element position and the state position both become the clamped time and all subscribers are notified; otherwise nothing changes |
| `Audio.AudioEngine.SetVolume` | src/lib/realtime/audioEngine.ts:166-173 | when attached, the state volume becomes the clamped volume and the element volume that value divided by 100, then notifies; the track need not be loaded |
| `Audio.AudioEngine.SyncWithRemote` | src/lib/realtime/audioEngine.ts:179-201 | nothing happens unless attached and loaded; otherwise the element and state move as `SeekDecision` says (with a notification when they move), the element is asked to play or pause as `PlayPauseRequest` says, and a refused play records the play error and notifies |
| `Audio.AudioEngine.Subscribe` | src/lib/realtime/audioEngine.ts:213-217 | adds the subscriber and calls it exactly once, at once, with the current state; returns the handle for that subscriber |
| `Audio.AudioEngine.Unsubscribe` | src/lib/realtime/audioEngine.ts:219-221 | removes that one subscriber and no other |
| `Audio.AudioEngine.Destroy` | src/lib/realtime/audioEngine.ts:235-244 | afterwards no interval runs, no subscriber remains and no element is attached |
| `Audio.DestroyIsTerminal` | src/lib/realtime/audioEngine.ts:235-244 | after destroy, load, play, pause, seek, set-volume, sync and any interval tick leave the state unchanged, and no subscriber is called |
| `Audio.ReloadWhilePlaying` | src/lib/realtime/audioEngine.ts:115-126 | loading while playing leaves the engine playing, with nothing loaded and the interval still running |
| `SessionEvents.EventName` | src/lib/realtime/events.ts:21-34 | the six transport and state identifiers start with `session:` and the three presence identifiers with `participant:` |
| `SessionEvents.EventNamesDistinct` | src/lib/realtime/events.ts:21-34 | the nine identifiers are pairwise distinct |
| `SessionEvents.ChannelName` | src/lib/realtime/events.ts:90-92 | the channel name starts with `presence-session-`, and the rest of it is exactly the session id |
| `SessionEvents.SessionIdFromChannel` | src/lib/realtime/events.ts:97-100 | no id comes from a name without the prefix; a returned id is non-empty, has no line terminator, and encodes back to the given name |
| `SessionEvents.ChannelRoundTrip` | src/lib/realtime/events.ts:90-100 | decoding an encoded id gives it back when it is non-empty without line terminators, and gives no id otherwise |
| `SessionEvents.ChannelDecodeCharacterised` | src/lib/realtime/events.ts:90-100 | decoding yields `s` if and only if the name is the encoding of `s` and `s` is non-empty without line terminators |
| `SessionEvents.BarePrefixHasNoSession` | src/lib/realtime/events.ts:98 | the prefix alone carries no session id |
| `SessionEvents.ChannelExamples` | src/lib/realtime/events.ts:90-100 | `abc123` round-trips; `not-a-channel` has no id; an id containing a newline does not round-trip |
| `RouteGuard.HomeOf` | middleware.ts:63-67 | COACH is sent to `/coach/dashboard`; every other role, known or not, to `/sessions` |
| `RouteGuard.Middleware` | middleware.ts:12-72 | `/admin…` always passes; a redirect with a callback only happens without a token, goes to the sign-in page and carries the pathname; other redirects only happen with a token |
| `RouteGuard.AreaOf` | middleware.ts:16-57 | each route family is recognised exactly by its prefix test (or the exact `/sessions`) |
| `RouteGuard.PrefixesDisjoint` | middleware.ts:16-57 | no pathname passes two of the gate's route tests |
| `RouteGuard.MiddlewareFollowsPolicy` | middleware.ts:12-72 | the chain of early returns decides as the per-family table does, for every pathname and token |
| `RouteGuard.AdminAlwaysPasses` | middleware.ts:16-18 | every `/admin…` path passes, whatever the token |
| `RouteGuard.CoachAreaGate` | middleware.ts:26-36 | without a token, `/coach…` goes to sign-in with the pathname as callback; COACH and SUPER_ADMIN pass; any other role goes to `/403` |
| `RouteGuard.SessionPagesNeedSignIn` | middleware.ts:39-54 | `/session/…` and exactly `/sessions` go to sign-in with the pathname as callback without a token, and pass with any token |
| `RouteGuard.SessionsSubpathUngated` | middleware.ts:48-54 | `/sessions/x` is not gated |
| `RouteGuard.AuthPagesSendSignedInUsersHome` | middleware.ts:57-69 | `/auth/…` passes without a token and for SUPER_ADMIN; sends COACH to `/coach/dashboard` and any other role to `/sessions` |
| `RouteGuard.UngatedPathsPass` | middleware.ts:71 | a path in none of the gated families passes |

## Left out

- The application-wide singleton `getAudioEngine` and the `typeof window` probes: engines are explicit instances, and each one is built with an element.
- `console.error` logging: it has no effect on state.
- The 100 ms cadence of the refresh interval: a tick is an explicit `IntervalTick` call.
- Floating point: times and volumes are reals. IEEE rounding of `/1000` and `/100` is not modelled. Neither are the NaN or infinite durations an element reports before or without metadata.
- The media element's own behaviour: it does not fire events by itself. For example, `Pause` does not call `OnPause`; the caller invokes each handler. The element's duration is the parameter of `OnLoadedMetadata`. Its progress and its pausing at the end of the track are `ElementPlayback`. Pausing the element and emptying its source in `destroy` are not visible, because the model drops the element at once.
- `Audio.AudioEngine.Play`: the pending play request resolves within the call, with `accepted` as its outcome. Events the platform fires while it is pending are not interleaved.
- `Audio.AudioEngine.SyncWithRemote`: `now` is a parameter, standing in for `Date.now()`.
- Re-entrant subscribers: a subscriber is an identity that receives snapshots. A subscriber that calls back into the engine, or unsubscribes during a notification round, is not modelled.
- The getter `state`: a snapshot is a Dafny value, so reading `state` already gives the copy.
- JavaScript strings are UTF-16 code units, and the model uses Unicode scalar values. Names containing lone surrogates cannot be expressed.
- `RouteGuard.HomeOf`: the role table is a plain map. Inherited object properties (a role named `constructor` or `toString`) are not modelled.
- Token lookup, response objects, absolute URL construction from the request URL, and the route `matcher` of middleware.ts: framework calls. The token is an input, and the result is the `Decision` datatype.
- The session sync coordinator and the server route behind `/api/session/[id]/event`: neither is part of this model.
- Prisma actions in src/actions/access.ts, admin pages and components, theme and auth providers, and the backend HTTP proxy: UI, database access and proxying.
