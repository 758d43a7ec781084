/**
 * The client-side playback engine of a live session (src/lib/realtime/audioEngine.ts).
 *
 * The browser's media element is replaced by the `Element` record (source, playback position,
 * paused flag, volume in [0, 1]); `audio` is `None` once the engine has been destroyed. Each media
 * event the engine listens to is a method (`OnLoadedMetadata`, `OnPlay`, ...), called by whoever
 * drives the model in the order the platform would fire them. The interval timer is a handle held
 * in `updateInterval`, beside `liveTimers`, the set of intervals the platform keeps running.
 * Calls to subscribers are recorded, in order, in `notified`. Times and volumes are real numbers.
 */
module Audio {
  import opened Wrappers

  // ---------------------------------------------------------------------------
  // Values
  // ---------------------------------------------------------------------------

  /** The engine's observable state (AudioEngineState); a snapshot is a value, hence a copy. */
  datatype EngineState = EngineState(
    isPlaying: bool,
    currentTime: real,
    duration: real,
    volume: real,
    isLoaded: bool,
    error: Option<string>)

  const InitialState: EngineState := EngineState(false, 0.0, 0.0, 80.0, false, None)

  const LoadErrorMessage: string := "Erreur de chargement audio"
  const PlayErrorMessage: string := "Impossible de démarrer la lecture"

  /** The part of the media element that the engine reads and writes. */
  datatype Element = Element(src: string, position: real, paused: bool, volume: real)

  /** A new, empty element: nothing loaded, paused at 0, full volume. */
  const NewElement: Element := Element("", 0.0, true, 1.0)

  /** A subscriber, by identity. */
  type Callback = nat

  /** One call of a subscriber with a state snapshot. */
  datatype Delivery = Delivery(callback: Callback, snapshot: EngineState)

  /** What `subscribe` hands back: calling it removes that subscriber again. */
  datatype Subscription = Subscription(callback: Callback)

  // ---------------------------------------------------------------------------
  // Clamping and drift correction
  // ---------------------------------------------------------------------------

  function Min(a: real, b: real): real { if a < b then a else b }
  function Max(a: real, b: real): real { if a < b then b else a }
  function Abs(x: real): real { if x < 0.0 then -x else x }

  /** `Math.max(0, Math.min(time, duration))`: a seek position inside the loaded track. */
  function ClampSeek(time: real, duration: real): (t: real)
    ensures 0.0 <= t
    ensures 0.0 <= duration ==> t <= duration
    ensures 0.0 <= time <= duration ==> t == time
    ensures time < 0.0 ==> t == 0.0
    ensures 0.0 <= duration <= time ==> t == duration
  {
    Max(0.0, Min(time, duration))
  }

  /** `Math.max(0, Math.min(100, volume))`: a volume percentage. */
  function ClampVolume(volume: real): (v: real)
    ensures 0.0 <= v <= 100.0
    ensures 0.0 <= volume <= 100.0 ==> v == volume
    ensures volume < 0.0 ==> v == 0.0
    ensures 100.0 < volume ==> v == 100.0
  {
    Max(0.0, Min(100.0, volume))
  }

  /** Positions closer than this to the remote one are left alone. */
  const SyncThreshold: real := 0.5

  /**
   * Where the remote playhead is now: a playing remote is projected forward by the time the
   * message spent in transit; the transit time is not clamped, so a timestamp later than `now`
   * projects backwards.
   */
  function ProjectedRemoteTime(remoteTime: real, isPlaying: bool, serverTimestamp: int, now: int): (t: real)
    ensures !isPlaying ==> t == remoteTime
    ensures isPlaying ==> (t - remoteTime) * 1000.0 == (now - serverTimestamp) as real
    ensures isPlaying && serverTimestamp <= now ==> remoteTime <= t
    ensures isPlaying && now < serverTimestamp ==> t < remoteTime
  {
    var latency := (now - serverTimestamp) as real / 1000.0;
    if isPlaying then remoteTime + latency else remoteTime
  }

  /** The deadband test: a seek is issued only when the element is more than 0.5 s off. */
  predicate NeedsSeek(elementTime: real, target: real) {
    Abs(elementTime - target) > SyncThreshold
  }

  /**
   * The position correction of a sync: where the element is sent, if anywhere. It is sent only
   * when it is more than the threshold away from the projected remote time, and then to that
   * time clamped into the track.
   */
  function SeekDecision(elementTime: real, duration: real, remoteTime: real, isPlaying: bool,
                        serverTimestamp: int, now: int): (seekTo: Option<real>)
    ensures seekTo.Some? <==> NeedsSeek(elementTime, ProjectedRemoteTime(remoteTime, isPlaying, serverTimestamp, now))
    ensures seekTo.Some? ==> seekTo.value == ClampSeek(ProjectedRemoteTime(remoteTime, isPlaying, serverTimestamp, now), duration)
  {
    var target := ProjectedRemoteTime(remoteTime, isPlaying, serverTimestamp, now);
    if NeedsSeek(elementTime, target) then Some(ClampSeek(target, duration)) else None
  }

  datatype TransportRequest = RequestPlay | RequestPause | NoRequest

  /** The transport correction of a sync: the element is asked to do what the remote does, with no deadband. */
  function PlayPauseRequest(remotePlaying: bool, elementPaused: bool): (r: TransportRequest)
    ensures r == RequestPlay <==> remotePlaying && elementPaused
    ensures r == RequestPause <==> !remotePlaying && !elementPaused
  {
    if remotePlaying && elementPaused then RequestPlay
    else if !remotePlaying && !elementPaused then RequestPause
    else NoRequest
  }

  /** After the request is carried out, the element plays exactly when the remote does, unless a play request was refused. */
  lemma PlayStateFollowsRemote(remotePlaying: bool, elementPaused: bool, playAccepted: bool)
    ensures var r := PlayPauseRequest(remotePlaying, elementPaused);
            var pausedAfter := if r == NoRequest then elementPaused else r == RequestPause || !playAccepted;
            (r != RequestPlay || playAccepted) ==> (pausedAfter <==> !remotePlaying)
  {
  }

  /** The deadband and projection cases the design names, at time `t`. */
  lemma DriftExamples(t: int)
    ensures SeekDecision(10.0, 300.0, 10.2, true, t, t) == None
    ensures SeekDecision(5.0, 300.0, 20.0, false, t, t) == Some(20.0)
    ensures ProjectedRemoteTime(100.0, true, t, t + 2000) == 102.0
    ensures SeekDecision(0.0, 300.0, 100.0, true, t, t + 2000) == Some(102.0)
    ensures SeekDecision(0.0, 60.0, 100.0, true, t, t + 2000) == Some(60.0)
  {
  }

  // ---------------------------------------------------------------------------
  // The subscriber set, as an insertion-ordered sequence without repetitions
  // ---------------------------------------------------------------------------

  predicate Distinct(s: seq<Callback>) {
    forall i, j :: 0 <= i < j < |s| ==> s[i] != s[j]
  }

  /** `Set.add`: a new member goes last; a present one keeps its place. */
  function WithCallback(cbs: seq<Callback>, cb: Callback): (r: seq<Callback>)
    ensures forall x :: x in r <==> x in cbs || x == cb
    ensures Distinct(cbs) ==> Distinct(r)
    ensures |cbs| <= |r| && r[..|cbs|] == cbs
  {
    if cb in cbs then cbs else cbs + [cb]
  }

  /** `Set.delete`: drops `cb` and keeps the others in their order. */
  function WithoutCallback(cbs: seq<Callback>, cb: Callback): (r: seq<Callback>)
    ensures forall x :: x in r <==> x in cbs && x != cb
    ensures Distinct(cbs) ==> Distinct(r)
    ensures cb !in cbs ==> r == cbs
  {
    if cbs == [] then []
    else if cbs[0] == cb then WithoutCallback(cbs[1..], cb)
    else
      var rest := WithoutCallback(cbs[1..], cb);
      DistinctCons(cbs[0], rest);
      [cbs[0]] + rest
  }

  lemma DistinctCons(x: Callback, s: seq<Callback>)
    ensures x !in s && Distinct(s) ==> Distinct([x] + s)
  {
  }

  lemma {:induction false} WithoutCallbackAppend(a: seq<Callback>, b: seq<Callback>, cb: Callback)
    ensures WithoutCallback(a + b, cb) == WithoutCallback(a, cb) + WithoutCallback(b, cb)
  {
    if a != [] {
      assert (a + b)[1..] == a[1..] + b;
      WithoutCallbackAppend(a[1..], b, cb);
    } else {
      assert a + b == b;
    }
  }

  /** Unsubscribing a new subscriber restores the set as it was before it subscribed. */
  lemma SubscribeThenUnsubscribe(cbs: seq<Callback>, cb: Callback)
    requires cb !in cbs
    ensures WithoutCallback(WithCallback(cbs, cb), cb) == cbs
  {
    WithoutCallbackAppend(cbs, [cb], cb);
  }

  /** One notification round: every subscriber, in order, called once with the same snapshot. */
  function Fanout(cbs: seq<Callback>, snapshot: EngineState): (ds: seq<Delivery>)
    ensures |ds| == |cbs|
    ensures forall i :: 0 <= i < |ds| ==> ds[i].callback == cbs[i] && ds[i].snapshot == snapshot
  {
    if cbs == [] then [] else [Delivery(cbs[0], snapshot)] + Fanout(cbs[1..], snapshot)
  }

  lemma FanoutSnoc(cbs: seq<Callback>, cb: Callback, snapshot: EngineState)
    ensures Fanout(cbs + [cb], snapshot) == Fanout(cbs, snapshot) + [Delivery(cb, snapshot)]
  {
  }

  // ---------------------------------------------------------------------------
  // The engine
  // ---------------------------------------------------------------------------

  class AudioEngine {
    /** The media element; `None` after `Destroy`. */
    var audio: Option<Element>
    /** The subscribers, in the order they were added. */
    var callbacks: seq<Callback>
    /** The handle of the position-refresh interval, if one was started and not yet cleared. */
    var updateInterval: Option<nat>
    /** `_state`. */
    var state: EngineState
    /** The intervals the platform is running, and the next handle it will give out. */
    var liveTimers: set<nat>
    var nextTimer: nat
    /** Every call made to a subscriber so far, oldest first. */
    var notified: seq<Delivery>

    /** Subscribers are a set, and the only running interval is the one the engine holds. */
    ghost predicate Valid()
      reads this
    {
      Distinct(callbacks) &&
      (updateInterval.None? ==> liveTimers == {}) &&
      (updateInterval.Some? ==> liveTimers == {updateInterval.value} && updateInterval.value < nextTimer)
    }

    /** A running interval, if any, is the engine's. */
    lemma AtMostOneTimer()
      requires Valid()
      ensures |liveTimers| <= 1
      ensures forall t :: t in liveTimers ==> updateInterval == Some(t)
    {
    }

    constructor ()
      ensures Valid()
      ensures audio == Some(NewElement) && state == InitialState
      ensures callbacks == [] && updateInterval == None && liveTimers == {} && notified == []
    {
      audio := Some(NewElement);
      callbacks := [];
      updateInterval := None;
      state := InitialState;
      liveTimers := {};
      nextTimer := 0;
      notified := [];
    }

    // ----- internal -----

    /** Calls every subscriber with one snapshot of the current state. */
    method NotifyCallbacks()
      modifies this`notified
      ensures notified == old(notified) + Fanout(callbacks, state)
    {
      var snapshot := state;
      var i := 0;
      while i < |callbacks|
        invariant 0 <= i <= |callbacks|
        invariant notified == old(notified) + Fanout(callbacks[..i], snapshot)
      {
        FanoutSnoc(callbacks[..i], callbacks[i], snapshot);
        assert callbacks[..i + 1] == callbacks[..i] + [callbacks[i]];
        notified := notified + [Delivery(callbacks[i], snapshot)];
        i := i + 1;
      }
      assert callbacks[..i] == callbacks;
    }

    method StopUpdateInterval()
      requires Valid()
      modifies this`updateInterval, this`liveTimers
      ensures Valid() && updateInterval == None && liveTimers == {}
    {
      if updateInterval.Some? {
        liveTimers := liveTimers - {updateInterval.value};
        updateInterval := None;
      }
    }

    /** Clears any running interval first, so that one interval at most is ever running. */
    method StartUpdateInterval()
      requires Valid()
      modifies this`updateInterval, this`liveTimers, this`nextTimer
      ensures Valid()
      ensures updateInterval == Some(old(nextTimer)) && liveTimers == {old(nextTimer)}
      ensures nextTimer == old(nextTimer) + 1
    {
      StopUpdateInterval();
      var handle := nextTimer;
      nextTimer := nextTimer + 1;
      liveTimers := liveTimers + {handle};
      updateInterval := Some(handle);
    }

    // ----- media events -----

    /** `loadedmetadata`; reading the element's duration fails once the element is gone. */
    method OnLoadedMetadata(elementDuration: real)
      requires Valid()
      modifies this`state, this`notified
      ensures Valid()
      ensures old(audio).None? ==> state == old(state) && notified == old(notified)
      ensures old(audio).Some? ==>
                state == old(state).(duration := elementDuration, isLoaded := true, error := None) &&
                notified == old(notified) + Fanout(callbacks, state)
    {
      if audio.None? { return; }
      state := state.(duration := elementDuration, isLoaded := true, error := None);
      NotifyCallbacks();
    }

    /** `play`: playing, and the position refresh (re)starts. */
    method OnPlay()
      requires Valid()
      modifies this`state, this`notified, this`updateInterval, this`liveTimers, this`nextTimer
      ensures Valid()
      ensures state == old(state).(isPlaying := true)
      ensures updateInterval == Some(old(nextTimer)) && liveTimers == {old(nextTimer)}
      ensures notified == old(notified) + Fanout(callbacks, state)
    {
      state := state.(isPlaying := true);
      StartUpdateInterval();
      NotifyCallbacks();
    }

    /** `pause`: not playing, and no interval runs any more. */
    method OnPause()
      requires Valid()
      modifies this`state, this`notified, this`updateInterval, this`liveTimers
      ensures Valid()
      ensures state == old(state).(isPlaying := false)
      ensures updateInterval == None && liveTimers == {}
      ensures notified == old(notified) + Fanout(callbacks, state)
    {
      state := state.(isPlaying := false);
      StopUpdateInterval();
      NotifyCallbacks();
    }

    /** `ended`: not playing, positioned at the end, and no interval runs any more. */
    method OnEnded()
      requires Valid()
      modifies this`state, this`notified, this`updateInterval, this`liveTimers
      ensures Valid()
      ensures state == old(state).(isPlaying := false, currentTime := old(state).duration)
      ensures updateInterval == None && liveTimers == {}
      ensures notified == old(notified) + Fanout(callbacks, state)
    {
      state := state.(isPlaying := false, currentTime := state.duration);
      StopUpdateInterval();
      NotifyCallbacks();
    }

    /** `error`: the load error is recorded and the track counts as not loaded. */
    method OnError()
      requires Valid()
      modifies this`state, this`notified
      ensures Valid()
      ensures state == old(state).(error := Some(LoadErrorMessage), isLoaded := false)
      ensures notified == old(notified) + Fanout(callbacks, state)
    {
      state := state.(error := Some(LoadErrorMessage), isLoaded := false);
      NotifyCallbacks();
    }

    /** `timeupdate`: copies the element position, unclamped, without notifying. */
    method OnTimeUpdate()
      requires Valid()
      modifies this`state
      ensures Valid()
      ensures old(audio).None? ==> state == old(state)
      ensures old(audio).Some? ==> state == old(state).(currentTime := audio.value.position)
    {
      if audio.None? { return; }
      state := state.(currentTime := audio.value.position);
    }

    /**
     * The platform runs the callback of interval `timer`. A cleared interval never runs; a
     * running one copies the element position, unclamped, and notifies, while an element is attached.
     */
    method IntervalTick(timer: nat)
      requires Valid()
      modifies this`state, this`notified
      ensures Valid()
      ensures timer !in liveTimers || audio.None? ==> state == old(state) && notified == old(notified)
      ensures timer in liveTimers && audio.Some? ==>
                state == old(state).(currentTime := audio.value.position) &&
                notified == old(notified) + Fanout(callbacks, state)
    {
      if timer !in liveTimers { return; }
      if audio.Some? {
        state := state.(currentTime := audio.value.position);
        NotifyCallbacks();
      }
    }

    /** The element's own playback moves its position or pauses it; no engine code runs. */
    method ElementPlayback(position: real, paused: bool)
      modifies this`audio
      ensures old(audio).None? ==> audio == None
      ensures old(audio).Some? ==> audio == Some(old(audio).value.(position := position, paused := paused))
    {
      if audio.Some? {
        audio := Some(audio.value.(position := position, paused := paused));
      }
    }

    // ----- transport verbs -----

    /**
     * Starts loading `url`: the track is unloaded and reset to 0 with no duration and no
     * error; volume and the playing flag are kept. The element restarts at 0, paused.
     */
    method Load(url: string)
      requires Valid()
      modifies this`audio, this`state, this`notified
      ensures Valid()
      ensures old(audio).None? ==> audio == None && state == old(state) && notified == old(notified)
      ensures old(audio).Some? ==>
                state == old(state).(isLoaded := false, error := None, currentTime := 0.0, duration := 0.0) &&
                audio == Some(old(audio).value.(src := url, position := 0.0, paused := true)) &&
                notified == old(notified) + Fanout(callbacks, state)
    {
      if audio.None? { return; }
      state := state.(isLoaded := false, error := None, currentTime := 0.0, duration := 0.0);
      audio := Some(audio.value.(src := url, position := 0.0, paused := true));
      NotifyCallbacks();
    }

    /**
     * Asks the element to play; `accepted` is whether its play request resolves. A rejection
     * is recorded as the playback error and notified, never raised.
     */
    method Play(accepted: bool)
      requires Valid()
      modifies this`audio, this`state, this`notified
      ensures Valid()
      ensures old(audio).None? || !old(state).isLoaded ==>
                audio == old(audio) && state == old(state) && notified == old(notified)
      ensures old(audio).Some? && old(state).isLoaded && accepted ==>
                audio == Some(old(audio).value.(paused := false)) &&
                state == old(state) && notified == old(notified)
      ensures old(audio).Some? && old(state).isLoaded && !accepted ==>
                audio == old(audio) &&
                state == old(state).(error := Some(PlayErrorMessage)) &&
                notified == old(notified) + Fanout(callbacks, state)
    {
      if audio.None? || !state.isLoaded { return; }
      if accepted {
        audio := Some(audio.value.(paused := false));
      } else {
        state := state.(error := Some(PlayErrorMessage));
        NotifyCallbacks();
      }
    }

    /** Asks the element to pause; it does not wait for the track to be loaded. */
    method Pause()
      modifies this`audio
      ensures old(audio).None? ==> audio == None
      ensures old(audio).Some? ==> audio == Some(old(audio).value.(paused := true))
    {
      if audio.None? { return; }
      audio := Some(audio.value.(paused := true));
    }

    /** Moves the element and the state to `time`, clamped into the loaded track. */
    method Seek(time: real)
      requires Valid()
      modifies this`audio, this`state, this`notified
      ensures Valid()
      ensures old(audio).None? || !old(state).isLoaded ==>
                audio == old(audio) && state == old(state) && notified == old(notified)
      ensures old(audio).Some? && old(state).isLoaded ==>
                var t := ClampSeek(time, old(state).duration);
                audio == Some(old(audio).value.(position := t)) &&
                state == old(state).(currentTime := t) &&
                notified == old(notified) + Fanout(callbacks, state)
    {
      if audio.None? || !state.isLoaded { return; }
      var clampedTime := ClampSeek(time, state.duration);
      audio := Some(audio.value.(position := clampedTime));
      state := state.(currentTime := clampedTime);
      NotifyCallbacks();
    }

    /** Sets the volume percentage, clamped into [0, 100]; the element takes it as a fraction. */
    method SetVolume(volume: real)
      requires Valid()
      modifies this`audio, this`state, this`notified
      ensures Valid()
      ensures old(audio).None? ==> audio == None && state == old(state) && notified == old(notified)
      ensures old(audio).Some? ==>
                var v := ClampVolume(volume);
                audio == Some(old(audio).value.(volume := v / 100.0)) &&
                state == old(state).(volume := v) &&
                notified == old(notified) + Fanout(callbacks, state)
    {
      if audio.None? { return; }
      var clampedVolume := ClampVolume(volume);
      audio := Some(audio.value.(volume := clampedVolume / 100.0));
      state := state.(volume := clampedVolume);
      NotifyCallbacks();
    }

    /**
     * Follows a remote position and play flag sent at `serverTimestamp` (epoch ms), received at
     * `now`: the element seeks as `SeekDecision` says, measured from the element's own position,
     * and is asked to play or pause as `PlayPauseRequest` says. `playAccepted` is the outcome of
     * the play request, if one is made.
     */
    method SyncWithRemote(remoteTime: real, isPlaying: bool, serverTimestamp: int, now: int, playAccepted: bool)
      requires Valid()
      modifies this`audio, this`state, this`notified
      ensures Valid()
      ensures old(audio).None? || !old(state).isLoaded ==>
                audio == old(audio) && state == old(state) && notified == old(notified)
      ensures old(audio).Some? && old(state).isLoaded ==>
                var seekTo := SeekDecision(old(audio).value.position, old(state).duration,
                                           remoteTime, isPlaying, serverTimestamp, now);
                var afterSeek := if seekTo.Some? then old(state).(currentTime := seekTo.value) else old(state);
                var request := PlayPauseRequest(isPlaying, old(audio).value.paused);
                var playFails := request == RequestPlay && !playAccepted;
                audio == Some(old(audio).value.(
                           position := if seekTo.Some? then seekTo.value else old(audio).value.position,
                           paused := if request == NoRequest then old(audio).value.paused
                                     else request == RequestPause || !playAccepted)) &&
                state == (if playFails then afterSeek.(error := Some(PlayErrorMessage)) else afterSeek) &&
                notified == old(notified) + (if seekTo.Some? then Fanout(callbacks, afterSeek) else [])
                                          + (if playFails then Fanout(callbacks, state) else [])
    {
      if audio.None? || !state.isLoaded { return; }
      ghost var seekTo := SeekDecision(audio.value.position, state.duration, remoteTime, isPlaying, serverTimestamp, now);
      ghost var request := PlayPauseRequest(isPlaying, audio.value.paused);
      var latency := (now - serverTimestamp) as real / 1000.0;
      var correctedTime := if isPlaying then remoteTime + latency else remoteTime;
      var timeDiff := Abs(audio.value.position - correctedTime);
      if timeDiff > 0.5 {
        Seek(correctedTime);
      }
      assert audio.Some? && audio.value.paused == old(audio).value.paused;
      ghost var afterSeekNotified := notified;
      assert afterSeekNotified == old(notified) + (if seekTo.Some? then Fanout(callbacks, state) else []);
      if isPlaying && audio.value.paused {
        Play(playAccepted);
      } else if !isPlaying && !audio.value.paused {
        Pause();
      }
    }

    // ----- subscribers -----

    /** Adds `cb` and calls it once, at once, with the current state. */
    method Subscribe(cb: Callback) returns (subscription: Subscription)
      requires Valid()
      modifies this`callbacks, this`notified
      ensures Valid()
      ensures callbacks == WithCallback(old(callbacks), cb)
      ensures notified == old(notified) + [Delivery(cb, state)]
      ensures subscription == Subscription(cb)
    {
      callbacks := WithCallback(callbacks, cb);
      notified := notified + [Delivery(cb, state)];
      subscription := Subscription(cb);
    }

    /** The handle returned by `Subscribe`: removes that one subscriber. */
    method Unsubscribe(subscription: Subscription)
      requires Valid()
      modifies this`callbacks
      ensures Valid()
      ensures callbacks == WithoutCallback(old(callbacks), subscription.callback)
    {
      callbacks := WithoutCallback(callbacks, subscription.callback);
    }

    // ----- teardown -----

    /** Stops the interval, forgets every subscriber and lets go of the element. */
    method Destroy()
      requires Valid()
      modifies this`audio, this`updateInterval, this`liveTimers, this`callbacks
      ensures Valid()
      ensures audio == None && updateInterval == None && liveTimers == {} && callbacks == []
    {
      StopUpdateInterval();
      callbacks := [];
      // pausing and emptying the element before dropping it is not observable in the model
      audio := None;
    }
  }

  // ---------------------------------------------------------------------------
  // What callers can rely on
  // ---------------------------------------------------------------------------

  /**
   * Once destroyed, the engine ignores every transport verb and every interval tick: the state,
   * the element and the subscribers stay as `Destroy` left them, and nobody is called.
   */
  method DestroyIsTerminal(e: AudioEngine, url: string, time: real, volume: real,
                           remoteTime: real, remotePlaying: bool, serverTimestamp: int, now: int,
                           accepted: bool, timer: nat)
    requires e.Valid()
    modifies e
    ensures e.Valid()
    ensures e.audio == None && e.callbacks == [] && e.liveTimers == {}
    ensures e.state == old(e.state) && e.notified == old(e.notified)
  {
    e.Destroy();
    e.Load(url);
    e.Play(accepted);
    e.Pause();
    e.Seek(time);
    e.SetVolume(volume);
    e.SyncWithRemote(remoteTime, remotePlaying, serverTimestamp, now, accepted);
    e.IntervalTick(timer);
  }

  /**
   * Loading a new track while one plays keeps the playing flag and the refresh interval, so the
   * engine reports playing with nothing loaded until the element fires its next event.
   */
  method ReloadWhilePlaying(url: string) returns (e: AudioEngine)
    ensures e.Valid()
    ensures e.state.isPlaying && !e.state.isLoaded && e.liveTimers != {}
  {
    e := new AudioEngine();
    e.OnLoadedMetadata(30.0);
    e.Play(true);
    e.OnPlay();
    e.Load(url);
  }
}
