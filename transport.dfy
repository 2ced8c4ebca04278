/** The player's transport: the playback state the component keeps (current
    track, playing flag, progress, volume), the audio element it drives, and
    the handlers that change both. Pure transition functions on a value view
    of the state specify each handler; the `PixelMusicPlayer` class performs
    the same handlers in place and is proved to follow them. */
module Transport {
  import opened Playlist
  import Marquee

  datatype Option<T> = None | Some(value: T)

  /** A command issued to the audio element, in the order the component issues them. */
  datatype Command = Play | Pause | SetVolume(level: real) | SetTime(position: real)

  /** The element's `duration`: not a number until the media's metadata has
      loaded, then a number of seconds. */
  datatype Duration = Unknown | Known(seconds: real)

  /** JavaScript truthiness of `audio.duration`: NaN and zero are both false. */
  predicate DurationReady(d: Duration) {
    d.Known? && d.seconds != 0.0
  }

  /** The position the element settles on when asked to seek to `t`: the
      element keeps the playback position within the media, from 0 to its
      duration. With no duration known it keeps `t` as the start position. */
  function SeekTarget(d: Duration, t: real): (p: real)
    ensures d.Known? && 0.0 <= d.seconds ==> 0.0 <= p <= d.seconds
    ensures d.Known? && 0.0 <= t <= d.seconds ==> p == t
    ensures d.Known? && t < 0.0 ==> p == 0.0
    ensures d.Known? && 0.0 <= d.seconds < t ==> p == d.seconds
    ensures d.Unknown? ==> p == t
  {
    match d
    case Unknown => t
    case Known(s) => if t < 0.0 then 0.0 else if t > s then s else t
  }

  /** The audio element's observable state and the commands it has received. */
  datatype AudioView = AudioView(volume: real, currentTime: real, duration: Duration, log: seq<Command>)

  /** The audio element after it receives command `c`: the command is logged;
      a volume command sets the output level, a seek sets the position. */
  function Receive(a: AudioView, c: Command): (r: AudioView)
    ensures r.log == a.log + [c]
    ensures r.duration == a.duration
    ensures r.volume == (if c.SetVolume? then c.level else a.volume)
    ensures r.currentTime == (if c.SetTime? then SeekTarget(a.duration, c.position) else a.currentTime)
  {
    match c
    case Play => a.(log := a.log + [c])
    case Pause => a.(log := a.log + [c])
    case SetVolume(v) => a.(volume := v, log := a.log + [c])
    case SetTime(t) => a.(currentTime := SeekTarget(a.duration, t), log := a.log + [c])
  }

  /** `audioRef.current?.command()`: the command reaches the element when
      there is one, and is dropped when there is none. */
  function Send(o: Option<AudioView>, c: Command): (r: Option<AudioView>)
    ensures r.Some? == o.Some?
    ensures o.Some? ==> r.value == Receive(o.value, c)
  {
    match o
    case None => None
    case Some(a) => Some(Receive(a, c))
  }

  /** The whole state of the component, as a value: current track index,
      playing flag, progress in percent, volume, the number of deferred play
      calls scheduled and not yet run, and the audio element if mounted. */
  datatype PlayerView = PlayerView(
    track: nat,
    playing: bool,
    progress: real,
    volume: real,
    pendingPlays: nat,
    audio: Option<AudioView>)

  /** The state on mount: first track, paused, no progress, volume 0.7, and
      the volume effect has mirrored 0.7 onto the element. */
  function Initial(audio: Option<AudioView>): (s: PlayerView)
    ensures s.track == 0 && !s.playing && s.progress == 0.0 && s.volume == 0.7 && s.pendingPlays == 0
    ensures s.audio == Send(audio, SetVolume(0.7))
  {
    PlayerView(0, false, 0.0, 0.7, 0, Send(audio, SetVolume(0.7)))
  }

  /** Play/pause button: pause when playing, play when paused, then flip the
      flag whatever the command achieves; with no element only the flag flips. */
  function ToggleStep(s: PlayerView): (r: PlayerView)
    ensures r.playing == !s.playing
    ensures r.audio.Some? == s.audio.Some?
    ensures s.audio.Some? ==> r.audio.value.log == s.audio.value.log + [if s.playing then Pause else Play]
    ensures s.audio.Some? ==> r.audio.value.volume == s.audio.value.volume
    ensures s.audio.Some? ==> r.audio.value.currentTime == s.audio.value.currentTime
    ensures s.audio.Some? ==> r.audio.value.duration == s.audio.value.duration
    ensures r.track == s.track && r.progress == s.progress && r.volume == s.volume
    ensures r.pendingPlays == s.pendingPlays
  {
    s.(playing := !s.playing, audio := Send(s.audio, if s.playing then Pause else Play))
  }

  /** Next button: move to the following track (the first after the last),
      mark playing and schedule one deferred play; nothing else changes. */
  function NextStep(s: PlayerView, n: nat): (r: PlayerView)
    requires s.track < n
    ensures r.track < n
    ensures s.track + 1 < n ==> r.track == s.track + 1
    ensures s.track + 1 == n ==> r.track == 0
    ensures r.playing && r.pendingPlays == s.pendingPlays + 1
    ensures r.progress == s.progress && r.volume == s.volume && r.audio == s.audio
  {
    s.(track := NextIndex(s.track, n), playing := true, pendingPlays := s.pendingPlays + 1)
  }

  /** Previous button: move to the preceding track (the last before the
      first), mark playing and schedule one deferred play; nothing else changes. */
  function PrevStep(s: PlayerView, n: nat): (r: PlayerView)
    requires s.track < n
    ensures r.track < n
    ensures 0 < s.track ==> r.track == s.track - 1
    ensures s.track == 0 ==> r.track == n - 1
    ensures r.playing && r.pendingPlays == s.pendingPlays + 1
    ensures r.progress == s.progress && r.volume == s.volume && r.audio == s.audio
  {
    s.(track := PrevIndex(s.track, n), playing := true, pendingPlays := s.pendingPlays + 1)
  }

  /** End of the current track: the `ended` listener calls the next-track handler. */
  function EndedStep(s: PlayerView, n: nat): (r: PlayerView)
    requires s.track < n
    ensures r.track == NextIndex(s.track, n)
    ensures s.track + 1 == n ==> r.track == 0
    ensures r.playing && r.pendingPlays == s.pendingPlays + 1
    ensures r.progress == s.progress && r.volume == s.volume && r.audio == s.audio
  {
    NextStep(s, n)
  }

  /** One scheduled deferred play runs: it issues play to the element
      mounted at that moment, if any, and touches nothing else. */
  function DeferredPlayStep(s: PlayerView): (r: PlayerView)
    requires s.pendingPlays > 0
    ensures r.pendingPlays == s.pendingPlays - 1
    ensures r.audio.Some? == s.audio.Some?
    ensures s.audio.Some? ==> r.audio.value.log == s.audio.value.log + [Play]
    ensures s.audio.Some? ==> r.audio.value.volume == s.audio.value.volume
    ensures s.audio.Some? ==> r.audio.value.currentTime == s.audio.value.currentTime
    ensures s.audio.Some? ==> r.audio.value.duration == s.audio.value.duration
    ensures r.track == s.track && r.playing == s.playing && r.progress == s.progress && r.volume == s.volume
  {
    s.(pendingPlays := s.pendingPlays - 1, audio := Send(s.audio, Play))
  }

  /** `timeupdate` listener: when the element has a truthy duration, progress
      becomes the elapsed fraction in percent; otherwise nothing changes. */
  function TimeUpdateStep(s: PlayerView): (r: PlayerView)
    ensures s.audio.Some? && DurationReady(s.audio.value.duration) ==>
      r.progress * s.audio.value.duration.seconds == s.audio.value.currentTime * 100.0
    ensures !(s.audio.Some? && DurationReady(s.audio.value.duration)) ==> r == s
    ensures r.track == s.track && r.playing == s.playing && r.volume == s.volume
    ensures r.pendingPlays == s.pendingPlays && r.audio == s.audio
  {
    if s.audio.Some? && DurationReady(s.audio.value.duration) then
      s.(progress := s.audio.value.currentTime / s.audio.value.duration.seconds * 100.0)
    else
      s
  }

  /** Click on the progress bar at `fraction` of its width: seek the element
      to that fraction of the duration. With no element nothing happens; with
      no duration the position is not a number; assigning it to `currentTime`
      throws a TypeError out of the handler, so nothing happens either. The component's own state never changes. */
  function SeekStep(s: PlayerView, fraction: real): (r: PlayerView)
    ensures r.track == s.track && r.playing == s.playing && r.progress == s.progress
    ensures r.volume == s.volume && r.pendingPlays == s.pendingPlays
    ensures r.audio.Some? == s.audio.Some?
    ensures s.audio.Some? && s.audio.value.duration.Known? ==>
      r.audio.value == Receive(s.audio.value, SetTime(fraction * s.audio.value.duration.seconds))
    ensures !(s.audio.Some? && s.audio.value.duration.Known?) ==> r == s
  {
    if s.audio.Some? && s.audio.value.duration.Known? then
      s.(audio := Send(s.audio, SetTime(fraction * s.audio.value.duration.seconds)))
    else
      s
  }

  /** Volume slider moved to `v`: the stored volume becomes `v` and the
      volume effect mirrors it onto the element; track and flag stay. */
  function VolumeStep(s: PlayerView, v: real): (r: PlayerView)
    ensures r.volume == v
    ensures r.audio.Some? == s.audio.Some?
    ensures s.audio.Some? ==> r.audio.value.volume == v && r.audio.value.log == s.audio.value.log + [SetVolume(v)]
    ensures s.audio.Some? ==> r.audio.value.currentTime == s.audio.value.currentTime
    ensures s.audio.Some? ==> r.audio.value.duration == s.audio.value.duration
    ensures r.track == s.track && r.playing == s.playing && r.progress == s.progress
    ensures r.pendingPlays == s.pendingPlays
  {
    s.(volume := v, audio := Send(s.audio, SetVolume(v)))
  }

  /** `loadeddata` on the element: play is issued exactly when the flag says playing. */
  function LoadedDataStep(s: PlayerView): (r: PlayerView)
    ensures r.audio.Some? == s.audio.Some?
    ensures s.audio.Some? ==>
      r.audio.value.log == s.audio.value.log + (if s.playing then [Play] else [])
    ensures s.audio.Some? ==> r.audio.value.volume == s.audio.value.volume
    ensures s.audio.Some? ==> r.audio.value.currentTime == s.audio.value.currentTime
    ensures s.audio.Some? ==> r.audio.value.duration == s.audio.value.duration
    ensures r.track == s.track && r.playing == s.playing && r.progress == s.progress
    ensures r.volume == s.volume && r.pendingPlays == s.pendingPlays
  {
    if s.playing then s.(audio := Send(s.audio, Play)) else s
  }

  /** Two presses of play/pause restore the flag, and the element has received
      the two opposite commands in order. */
  lemma ToggleTwiceRestores(s: PlayerView)
    ensures ToggleStep(ToggleStep(s)).playing == s.playing
    ensures ToggleStep(ToggleStep(s)).audio.Some? ==>
      ToggleStep(ToggleStep(s)).audio.value.log ==
        s.audio.value.log + (if s.playing then [Pause, Play] else [Play, Pause])
  {
    if s.audio.Some? {
      var c := if s.playing then Pause else Play;
      var c' := if s.playing then Play else Pause;
      assert s.audio.value.log + [c] + [c'] == s.audio.value.log + [c, c'];
    }
  }

  /** "Previous" after "next", and "next" after "previous", return to the
      original track with playback on and two deferred plays scheduled. */
  lemma NextPrevRoundTrip(s: PlayerView, n: nat)
    requires s.track < n
    ensures PrevStep(NextStep(s, n), n).track == s.track
    ensures NextStep(PrevStep(s, n), n).track == s.track
    ensures PrevStep(NextStep(s, n), n).playing
    ensures PrevStep(NextStep(s, n), n).pendingPlays == s.pendingPlays + 2
  {
    NextPrevInverse(s.track, n);
  }

  /** The state after `k` tracks have ended one after another. */
  function EndedSteps(s: PlayerView, n: nat, k: nat): (r: PlayerView)
    requires s.track < n
    ensures r.track < n
  {
    if k == 0 then s else EndedStep(EndedSteps(s, n, k - 1), n)
  }

  /** Continuous playback: after `k` tracks end the index has advanced `k`
      steps with wrap-around, and each ended track has left one deferred play. */
  lemma {:induction false} EndedStepsAdvances(s: PlayerView, n: nat, k: nat)
    requires s.track < n
    ensures EndedSteps(s, n, k).track == Advance(s.track, n, k)
    ensures EndedSteps(s, n, k).pendingPlays == s.pendingPlays + k
    ensures k > 0 ==> EndedSteps(s, n, k).playing
  {
    if k > 0 {
      EndedStepsAdvances(s, n, k - 1);
    }
  }

  /** Playing through the whole list, one `ended` per track, never stops and
      comes back to the starting track. */
  lemma PlaylistLoops(s: PlayerView, n: nat)
    requires s.track < n
    ensures EndedSteps(s, n, n).track == s.track
    ensures EndedSteps(s, n, n).playing
  {
    EndedStepsAdvances(s, n, n);
    FullCycleReturns(s.track, n);
  }

  /** Finishing the last track does not stop playback: the index wraps to
      the first track, the flag stays on, and once the deferred call runs the
      element has been told to play. */
  lemma LastTrackEndWraps(s: PlayerView, n: nat)
    requires s.track < n && s.track == n - 1
    ensures EndedStep(s, n).track == 0
    ensures DeferredPlayStep(EndedStep(s, n)).playing
    ensures s.audio.Some? ==>
      DeferredPlayStep(EndedStep(s, n)).audio.value.log == s.audio.value.log + [Play]
  {
  }

  /** A click inside the bar of an element with a known, positive duration
      seeks to exactly that fraction of the duration. */
  lemma SeekInsideBar(s: PlayerView, fraction: real)
    requires s.audio.Some? && s.audio.value.duration.Known? && 0.0 < s.audio.value.duration.seconds
    requires 0.0 <= fraction <= 1.0
    ensures SeekStep(s, fraction).audio.value.currentTime == fraction * s.audio.value.duration.seconds
  {
    var a := s.audio.value;
    var t := fraction * a.duration.seconds;
    FractionOfDuration(fraction, a.duration.seconds);
    assert SeekTarget(a.duration, t) == t;
    assert SeekStep(s, fraction).audio.value == Receive(a, SetTime(t));
  }

  /** Proof helper: a fraction between 0 and 1 of a non-negative duration lies within it. */
  lemma FractionOfDuration(f: real, d: real)
    requires 0.0 <= f <= 1.0 && 0.0 <= d
    ensures 0.0 <= f * d <= d
  {
    assert d - f * d == (1.0 - f) * d;
  }

  /** The audio element: an output level, a playback position, a duration and
      the record of every command it has been sent. Its own loading, decoding
      and playback run outside this model. */
  class AudioElement {
    var volume: real
    var currentTime: real
    var duration: Duration
    var log: seq<Command>

    /** A freshly created element: full volume, at the start, nothing received. */
    constructor (duration: Duration)
      ensures View() == AudioView(1.0, 0.0, duration, [])
    {
      this.volume := 1.0;
      this.currentTime := 0.0;
      this.duration := duration;
      this.log := [];
    }

    function View(): AudioView
      reads this
    {
      AudioView(volume, currentTime, duration, log)
    }

    /** `play()`: the request is recorded; whether playback starts is up to the element. */
    method Play()
      modifies this
      ensures View() == Receive(old(View()), Command.Play)
    {
      log := log + [Command.Play];
    }

    /** `pause()`. */
    method Pause()
      modifies this
      ensures View() == Receive(old(View()), Command.Pause)
    {
      log := log + [Command.Pause];
    }

    /** Assignment to `volume`. */
    method SetVolume(v: real)
      modifies this
      ensures View() == Receive(old(View()), Command.SetVolume(v))
    {
      volume := v;
      log := log + [Command.SetVolume(v)];
    }

    /** Assignment to `currentTime`. */
    method SetCurrentTime(t: real)
      modifies this
      ensures View() == Receive(old(View()), SetTime(t))
    {
      currentTime := SeekTarget(duration, t);
      log := log + [SetTime(t)];
    }
  }

  /** The component: a fixed, non-empty track list, the element held in
      `audioRef.current` (null when none is mounted) and the state hooks. */
  class PixelMusicPlayer {
    const tracks: Tracks
    const audio: AudioElement?
    var currentTrack: nat
    var isPlaying: bool
    var progress: real
    var volume: real
    var pendingPlays: nat

    /** The current track is always an index into the track list. */
    ghost predicate Valid()
      reads this
    {
      currentTrack < |tracks|
    }

    /** The whole state as a value, the element included. */
    function View(): PlayerView
      reads this, audio
    {
      PlayerView(currentTrack, isPlaying, progress, volume, pendingPlays,
                 if audio == null then None else Some(audio.View()))
    }

    /** Mount: the initial state hooks, then the volume effect's first run. */
    constructor (tracks: Tracks, audio: AudioElement?)
      modifies audio
      ensures Valid() && this.tracks == tracks && this.audio == audio
      ensures View() == Initial(if audio == null then None else Some(old(audio.View())))
    {
      this.tracks := tracks;
      this.audio := audio;
      currentTrack := 0;
      isPlaying := false;
      progress := 0.0;
      volume := 0.7;
      pendingPlays := 0;
      new;
      if audio != null {
        audio.SetVolume(0.7);
      }
    }

    method TogglePlay()
      requires Valid()
      modifies this, audio
      ensures Valid() && View() == ToggleStep(old(View()))
    {
      if isPlaying {
        if audio != null { audio.Pause(); }
      } else {
        if audio != null { audio.Play(); }
      }
      isPlaying := !isPlaying;
    }

    method NextTrack()
      requires Valid()
      modifies this
      ensures Valid() && View() == NextStep(old(View()), |tracks|)
    {
      currentTrack := NextIndex(currentTrack, |tracks|);
      isPlaying := true;
      pendingPlays := pendingPlays + 1;
    }

    method PrevTrack()
      requires Valid()
      modifies this
      ensures Valid() && View() == PrevStep(old(View()), |tracks|)
    {
      currentTrack := PrevIndex(currentTrack, |tracks|);
      isPlaying := true;
      pendingPlays := pendingPlays + 1;
    }

    /** The `ended` listener. */
    method HandleEnded()
      requires Valid()
      modifies this
      ensures Valid() && View() == EndedStep(old(View()), |tracks|)
    {
      NextTrack();
    }

    /** One deferred `audioRef.current?.play()` scheduled by next or previous runs. */
    method RunDeferredPlay()
      requires Valid() && pendingPlays > 0
      modifies this, audio
      ensures Valid() && View() == DeferredPlayStep(old(View()))
    {
      pendingPlays := pendingPlays - 1;
      if audio != null { audio.Play(); }
    }

    /** The `timeupdate` listener. */
    method UpdateProgress()
      requires Valid()
      modifies this
      ensures Valid() && View() == TimeUpdateStep(old(View()))
    {
      if audio != null && DurationReady(audio.duration) {
        progress := audio.currentTime / audio.duration.seconds * 100.0;
      }
    }

    /** Click on the progress bar at `fraction` of its width. */
    method HandleProgressClick(fraction: real)
      requires Valid()
      modifies audio
      ensures Valid() && View() == SeekStep(old(View()), fraction)
    {
      if audio != null && audio.duration.Known? {
        ghost var before := View();
        var position := fraction * audio.duration.seconds;
        audio.SetCurrentTime(position);
        assert audio.View() == Receive(before.audio.value, SetTime(position));
        assert View() == before.(audio := Some(audio.View()));
      }
    }

    /** The volume slider's change handler followed by the volume effect. */
    method SetVolume(v: real)
      requires Valid()
      modifies this, audio
      ensures Valid() && View() == VolumeStep(old(View()), v)
    {
      volume := v;
      if audio != null { audio.SetVolume(volume); }
    }

    /** The element's `loadeddata` handler. */
    method HandleLoadedData()
      requires Valid()
      modifies audio
      ensures Valid() && View() == LoadedDataStep(old(View()))
    {
      if isPlaying && audio != null { audio.Play(); }
    }

    /** The marquee text for the track being played: its title after the
        prefix and its artist before the loop padding. */
    function MarqueeText(): (m: string)
      reads this
      requires Valid()
      ensures var t := tracks[currentTrack];
              |m| == |Marquee.Prefix| + |t.title| + |Marquee.Separator| + |t.artist| + |Marquee.Suffix|
              && m[..|Marquee.Prefix|] == Marquee.Prefix
              && m[|Marquee.Prefix|..|Marquee.Prefix| + |t.title|] == t.title
              && m[|Marquee.Prefix| + |t.title|..|Marquee.Prefix| + |t.title| + |Marquee.Separator|] == Marquee.Separator
              && m[|m| - |Marquee.Suffix| - |t.artist|..|m| - |Marquee.Suffix|] == t.artist
              && m[|m| - |Marquee.Suffix|..] == Marquee.Suffix
    {
      Marquee.Compose(tracks[currentTrack])
    }
  }
}
