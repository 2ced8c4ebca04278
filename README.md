# Pixel music player: a Dafny model of its logic

The pixel music player is a single browser component. It draws a pixel-art turntable, runs a scrolling "now playing" LED marquee, and offers play/pause, next, previous, a seekable progress bar and a volume slider over a fixed track list. It drives a native audio element. This project models the three pieces of logic in it and proves what they promise.

- **Transport** (`transport.dfy`, module `Transport`). The component's state is the current track index, the playing flag, the progress in percent and the volume. Pure transition functions on a value view of that state (`PlayerView`) specify each handler: toggle, next, previous, track ended, the deferred play scheduled by next and previous, time update, progress-bar click, volume change and `loadeddata`. The class `PixelMusicPlayer` holds the same state as fields and performs each handler in place. Each of its methods is proved to produce exactly the state its transition function gives. The audio element is the class `AudioElement`. It has an output level, a playback position, a duration, and a log of every command (`Play`, `Pause`, `SetVolume`, `SetTime`) it has received. A missing element (`audioRef.current` still null) is a null reference: commands to it are dropped, as the optional call `?.` does.
- **Track list arithmetic** (`playlist.dfy`, module `Playlist`). This covers the wrap-around index updates of next and previous on a list of any length of at least one, and what repeated auto-advance does.
- **Record geometry** (`disc.dfy`, module `Disc`). This covers the two nested loops that emit the dark ring and sheen cells of a 32 x 32 grid and the label cells of a 64 x 64 grid. The model works on integers. With the doubled offsets `ax = 2x+1-2c` and `ay = 2y+1-2c`, and `s = ax²+ay²` (four times the squared distance), each test on `dist = Math.sqrt(dx*dx+dy*dy)` becomes an exact test on `s`:
  - `dist <= r` holds iff `s <= 4r²`.
  - `dist > 5.5` holds iff `s > 121`.
  - `floor(dist) == k` holds iff `4k² <= s < 4(k+1)²`.
  - `dx < 0` holds iff `x < c`.

  These are exact for the drawing's doubles:
  - `dx*dx+dy*dy` is a small multiple of 1/4, so it is computed exactly.
  - `Math.sqrt` is correctly rounded and monotone, and every threshold is representable.
  - `s` is never within rounding distance of a threshold, since `s ≡ 2 (mod 8)` (see `Disc.QuadDistSqModEight`).

  Lemmas state each equivalence against the real squared distance.
- **Marquee** (`marquee.dfy`, module `Marquee`). The text built from the current track's title and artist.

Two details of the handlers:
- Next and previous leave the progress as it is.
- The seek has no guard of its own. With no duration, fraction × `NaN` is `NaN`; assigning `NaN` to `currentTime` throws a TypeError out of the click handler, so nothing changes.

## Model

| member | source | states |
|---|---|---|
| `Playlist.NextIndex` | src/PixelMusicPlayer.jsx:41 | the next index stays in range, is one more when not at the end, and wraps from the last track to 0 |
| `Playlist.PrevIndex` | src/PixelMusicPlayer.jsx:47 | the previous index stays in range, is one less when not at the start, and wraps from 0 to the last track |
| `Playlist.NextPrevInverse` | src/PixelMusicPlayer.jsx:40-50 | previous after next, and next after previous, return to the original index for any list length of at least 1 |
| `Playlist.Advance` | src/PixelMusicPlayer.jsx:25 | the index after k successive auto-advances is always a valid index |
| `Playlist.AdvanceAdds` | src/PixelMusicPlayer.jsx:25 | a steps followed by b steps are a + b steps |
| `Playlist.AdvanceWithoutWrap` | src/PixelMusicPlayer.jsx:41 | before the end of the list, k steps move exactly k forward |
| `Playlist.AdvanceWraps` | src/PixelMusicPlayer.jsx:41 | k < n steps land on i + k, or on i + k - n once past the last track |
| `Playlist.FullCycleReturns` | src/PixelMusicPlayer.jsx:25 | n successive "ended" advances return to the starting track: playback loops instead of stopping |
| `Playlist.EveryTrackReached` | src/PixelMusicPlayer.jsx:25 | from any track, every track is reached within fewer than n auto-advances, at the forward distance |
| `Marquee.Compose` | src/PixelMusicPlayer.jsx:153 | the marquee is the fixed prefix, the title, " - ", the artist and the fixed loop padding, with their exact positions and total length |
| `Marquee.ComposeRecoverable` | src/PixelMusicPlayer.jsx:153 | title and artist are read back from the marquee, given the title's length: nothing is lost or garbled |
| `Transport.SeekTarget` | src/PixelMusicPlayer.jsx:55 | a seek position settles within [0, duration]: a target already inside is kept exactly, one before the start settles on 0 and one past the end on the duration |
| `Transport.Receive` | src/PixelMusicPlayer.jsx:18 | a command is appended to the element's log; only a volume command changes the level and only a seek changes the position |
| `Transport.Send` | src/PixelMusicPlayer.jsx:35-36 | `audioRef.current?.…`: a command reaches a present element and is dropped when there is none |
| `Transport.Initial` | src/PixelMusicPlayer.jsx:4-7 | on mount: track 0, paused, progress 0, volume 0.7, and 0.7 is mirrored onto the element |
| `Transport.ToggleStep` | src/PixelMusicPlayer.jsx:34-38 | pause is sent when playing and play when paused; the flag flips whatever the outcome, even with no element; the element's level, position and duration and the rest of the component's state are unchanged |
| `Transport.NextStep` | src/PixelMusicPlayer.jsx:40-44 | the index moves to the next track (0 after the last); playing is forced on; one more deferred play is pending; volume, progress and the element are untouched |
| `Transport.PrevStep` | src/PixelMusicPlayer.jsx:46-50 | the index moves to the previous track (the last before 0); playing is forced on; one more deferred play is pending; volume, progress and the element are untouched |
| `Transport.EndedStep` | src/PixelMusicPlayer.jsx:25 | the end of a track moves to the next index (0 after the last), forces playing on, adds one pending deferred play, and leaves progress, volume and the element untouched |
| `Transport.DeferredPlayStep` | src/PixelMusicPlayer.jsx:43 | a deferred play consumes one pending call and sends play to the element if present; the element's level, position and duration and the rest of the component's state are unchanged |
| `Transport.TimeUpdateStep` | src/PixelMusicPlayer.jsx:24 | with a truthy duration, progress × duration = currentTime × 100; with NaN or zero duration nothing changes |
| `Transport.SeekStep` | src/PixelMusicPlayer.jsx:52-56 | a click seeks a present element with a known duration to fraction × duration; otherwise nothing changes; the component's own state never changes |
| `Transport.VolumeStep` | src/PixelMusicPlayer.jsx:17-19 | the stored volume becomes v and the element's level becomes v, recorded in its log; its position and duration, the track, flag, progress and pending plays are untouched |
| `Transport.LoadedDataStep` | src/PixelMusicPlayer.jsx:435 | play is sent iff the flag says playing; the element's level, position and duration and the component's state are otherwise unchanged |
| `Transport.ToggleTwiceRestores` | src/PixelMusicPlayer.jsx:34-38 | two toggles restore the flag, and the element received the two opposite commands in order |
| `Transport.NextPrevRoundTrip` | src/PixelMusicPlayer.jsx:40-50 | next then previous (and previous then next) returns to the original track, playing, with two deferred plays pending |
| `Transport.EndedSteps` | src/PixelMusicPlayer.jsx:25 | the state after k tracks end in a row keeps a valid index |
| `Transport.EndedStepsAdvances` | src/PixelMusicPlayer.jsx:25 | after k ended events the index has advanced k steps with wrap-around, each leaving one deferred play, and playback is on |
| `Transport.PlaylistLoops` | src/PixelMusicPlayer.jsx:25 | one ended event per track brings playback back to the starting track, still playing |
| `Transport.LastTrackEndWraps` | src/PixelMusicPlayer.jsx:40-44 | the end of the last track moves to track 0, and the deferred call re-issues play (wrap, not stop) |
| `Transport.SeekInsideBar` | src/PixelMusicPlayer.jsx:52-56 | a click fraction in [0, 1] with a positive duration seeks to exactly fraction × duration (duration 200 at 0.25 gives 50) |
| `Transport.AudioElement.constructor` | src/PixelMusicPlayer.jsx:432-436 | a new element is at full volume, at position 0, and has received nothing |
| `Transport.AudioElement.Play` | src/PixelMusicPlayer.jsx:36 | `play()` is recorded and changes nothing else |
| `Transport.AudioElement.Pause` | src/PixelMusicPlayer.jsx:35 | `pause()` is recorded and changes nothing else |
| `Transport.AudioElement.SetVolume` | src/PixelMusicPlayer.jsx:18 | assigning `volume` sets the level and is recorded |
| `Transport.AudioElement.SetCurrentTime` | src/PixelMusicPlayer.jsx:55 | assigning `currentTime` moves the position to the settled seek target and is recorded |
| `Transport.PixelMusicPlayer.constructor` | src/PixelMusicPlayer.jsx:4-19 | mounting yields the initial state and mirrors volume 0.7 onto the element |
| `Transport.PixelMusicPlayer.TogglePlay` | src/PixelMusicPlayer.jsx:34-38 | the in-place handler yields exactly `ToggleStep` of the old state |
| `Transport.PixelMusicPlayer.NextTrack` | src/PixelMusicPlayer.jsx:40-44 | the in-place handler yields exactly `NextStep` of the old state and keeps the index valid |
| `Transport.PixelMusicPlayer.PrevTrack` | src/PixelMusicPlayer.jsx:46-50 | the in-place handler yields exactly `PrevStep` of the old state and keeps the index valid |
| `Transport.PixelMusicPlayer.HandleEnded` | src/PixelMusicPlayer.jsx:25 | the `ended` listener yields exactly `EndedStep` of the old state |
| `Transport.PixelMusicPlayer.RunDeferredPlay` | src/PixelMusicPlayer.jsx:49 | a pending deferred play yields exactly `DeferredPlayStep` of the old state |
| `Transport.PixelMusicPlayer.UpdateProgress` | src/PixelMusicPlayer.jsx:24 | the `timeupdate` listener yields exactly `TimeUpdateStep` of the old state |
| `Transport.PixelMusicPlayer.HandleProgressClick` | src/PixelMusicPlayer.jsx:52-56 | the click handler yields exactly `SeekStep` of the old state |
| `Transport.PixelMusicPlayer.SetVolume` | src/PixelMusicPlayer.jsx:424 | the slider handler plus the volume effect yield exactly `VolumeStep` of the old state |
| `Transport.PixelMusicPlayer.HandleLoadedData` | src/PixelMusicPlayer.jsx:435 | the `loadeddata` handler yields exactly `LoadedDataStep` of the old state |
| `Transport.PixelMusicPlayer.MarqueeText` | src/PixelMusicPlayer.jsx:153 | the marquee is the prefix, the current track's title, " - ", its artist and the loop padding, each at its exact position, with exactly their combined length |
| `Disc.FloorHalfRootFrom` | src/PixelMusicPlayer.jsx:78 | counting up from any k with 4k² <= s finds the r with 4r² <= s < 4(r+1)² |
| `Disc.FloorHalfRoot` | src/PixelMusicPlayer.jsx:78 | the result k satisfies 4k² <= s < 4(k+1)², that is k = floor(dist) |
| `Disc.FloorHalfRootUnique` | src/PixelMusicPlayer.jsx:78 | the floor is the only k with 4k² <= s < 4(k+1)² |
| `Disc.OuterLayers` | src/PixelMusicPlayer.jsx:67-84 | the ring layer holds exactly the cells of the 32 x 32 grid with 5.5 < dist <= 16, filled #111; the sheen layer holds exactly the sheen cells; both are strictly row-major, so no cell appears twice |
| `Disc.LabelLayer` | src/PixelMusicPlayer.jsx:91-103 | the label layer holds exactly the cells of the 64 x 64 grid with dist <= 11, coloured #EEE iff dist <= 4 and #FF0055 otherwise, strictly row-major |
| `Disc.QuadDistSqExact` | src/PixelMusicPlayer.jsx:69-71 | the integer s is exactly four times dx*dx + dy*dy |
| `Disc.OuterRingMeaning` | src/PixelMusicPlayer.jsx:73-74 | a cell is in the ring iff 5.5² < dx²+dy² <= 16² about (16, 16) |
| `Disc.LabelMeaning` | src/PixelMusicPlayer.jsx:97-99 | a cell is in the label iff dx²+dy² <= 11² about (32, 32), and in the hole iff dx²+dy² <= 4² |
| `Disc.FloorMeaning` | src/PixelMusicPlayer.jsx:78 | the tested floor k satisfies k² <= dx²+dy² < (k+1)², that is k = floor(dist) |
| `Disc.UpperLeftMeaning` | src/PixelMusicPlayer.jsx:77 | dx < 0 and dy < 0 holds iff x < 16 and y < 16 |
| `Disc.LayersNest` | src/PixelMusicPlayer.jsx:77-99 | hole cells are label cells; sheen cells are ring cells in the upper-left quadrant with floor(dist) divisible by 4 |
| `Disc.OddSquare` | src/PixelMusicPlayer.jsx:69-71 | an odd doubled offset squares to 1 modulo 8 |
| `Disc.QuadDistSqModEight` | src/PixelMusicPlayer.jsx:69-71 | for every cell and centre, s is 2 modulo 8, so no cell centre lies exactly on an integer radius |
| `Disc.SheenArcs` | src/PixelMusicPlayer.jsx:77-79 | every sheen cell has floor(dist) 8 or 12: the highlight is two arcs |

## Left out

- Rendering: the JSX, the SVG rectangles' `key` and size attributes, CSS, keyframes and the spin animation (lines 105-437) are left out. The rectangle keys are unique because no cell is emitted twice.
- The static icon and tonearm components (lines 122-150) are constant markup.
- The audio element's own behaviour is not modelled: loading, decoding, network fetch of the URLs, the promise returned by `play()`, and playback advancing `currentTime`. The element records every command and applies only its effect on level and position. Switching `src` when the track changes (line 434) is not modelled either.
- `setTimeout` (lines 43, 49) is not modelled as time. Each next or previous adds one pending deferred play, and `RunDeferredPlay` runs one of them. Pending calls are never cancelled, as in the code, so two quick presses leave two pending plays.
- React mechanics are not modelled: hook scheduling, batching of state updates, and effect subscription and cleanup (lines 21-32). Each handler is one atomic update. The `timeupdate` and `ended` listeners are taken as registered whenever an element exists.
- Floating point is not modelled. Progress, volume and seek arithmetic use exact reals. The click fraction from `getBoundingClientRect`/`clientX` (lines 53-54) and the slider's `parseFloat` (line 424) are parameters. An infinite duration (a live stream) is not modelled.
- Transport.TimeUpdateStep: states progress × duration = currentTime × 100 exactly. It does not model the rounding of the double division.
- Transport.PixelMusicPlayer.SetVolume accepts any real, and so does Transport.VolumeStep. The slider only produces values in [0, 1], and the range check the element applies to other values is not modelled. Each call logs `SetVolume` even when v equals the stored volume, where the effect on `[volume]` would not re-run; the slider never reports an unchanged value, so that case does not arise.
