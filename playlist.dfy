/** The playlist navigation driver of js/navigation.js: one playlist, a
    cursor (-1 for "no track"), a shuffle flag and a repeat mode, all
    shared as page globals with the auto-play driver and the visualizer.

    The external play primitive `window.initializeAudioForPlaylist` is an
    abstract step that succeeds or fails (`audioOk`); `Math.random` is a
    sequence of draws in [0, 1) that the caller supplies. */
module Playlist {
  import opened JsText

  /** A playlist entry. `lyrics` is "" when the track has none: the
      source tests `song.lyrics` for truthiness, and an absent field and
      an empty string are both falsy. */
  datatype Track = Track(file: string, title: string, cover: string, duration: string, lyrics: string)

  /** `isRepeatMode`. It starts as the boolean `false` (here `Unset`),
      which is none of the three names `toggleRepeat` cycles through. */
  datatype RepeatMode = Unset | Off | All | One

  const RepeatModes: seq<RepeatMode> := [Off, All, One]

  /** `modes.indexOf(mode)`: -1 for the initial `false`. */
  function RepeatIndex(m: RepeatMode): int
  {
    match m
    case Unset => -1
    case Off => 0
    case All => 1
    case One => 2
  }

  /** The mode `toggleRepeat` moves to: `modes[(indexOf(m) + 1) % 3]`. */
  function ToggledRepeat(m: RepeatMode): (r: RepeatMode)
    ensures r in RepeatModes
    ensures RepeatIndex(r) == (RepeatIndex(m) + 1) % 3
  {
    RepeatModes[(RepeatIndex(m) + 1) % 3]
  }

  /** From the initial `false` the first toggle gives 'off'; after that the
      modes cycle 'off' -> 'all' -> 'one' -> 'off', so three toggles are
      the identity. */
  lemma RepeatCycle(m: RepeatMode)
    ensures ToggledRepeat(Unset) == Off
    ensures ToggledRepeat(Off) == All && ToggledRepeat(All) == One && ToggledRepeat(One) == Off
    ensures m != Unset ==> ToggledRepeat(ToggledRepeat(ToggledRepeat(m))) == m
  {
  }

  // ---------------------------------------------------------------------
  // The shuffle pick: `do { i = Math.floor(Math.random() * n) } while (...)`
  // ---------------------------------------------------------------------

  /** `Math.floor(r * n)`. */
  function Pick(r: real, n: nat): int
  {
    (r * n as real).Floor
  }

  /** A draw of `Math.random()` lies in [0, 1). */
  predicate UnitDraws(draws: seq<real>)
  {
    forall k :: 0 <= k < |draws| ==> 0.0 <= draws[k] < 1.0
  }

  /** The draws make the loop stop: there is a first draw, and when the
      loop can repeat (n > 1) some draw differs from `avoid`. */
  predicate LoopExits(draws: seq<real>, n: nat, avoid: int)
  {
    |draws| > 0 && (n > 1 ==> exists k :: 0 <= k < |draws| && Pick(draws[k], n) != avoid)
  }

  lemma PickInRange(r: real, n: nat)
    requires 0.0 <= r < 1.0 && n > 0
    ensures 0 <= Pick(r, n) < n
  {
    var x := r * n as real;
    assert 0.0 <= x;
    assert x < n as real by {
      assert (1.0 - r) * n as real > 0.0;
    }
  }

  /** The position of the draw at which the loop, already past the draws
      before `from`, stops. */
  function ExitFrom(draws: seq<real>, n: nat, avoid: int, from: nat): (k: nat)
    requires from < |draws|
    requires n > 1 ==> exists k :: from <= k < |draws| && Pick(draws[k], n) != avoid
    ensures from <= k < |draws|
    ensures n > 1 ==> Pick(draws[k], n) != avoid
    ensures n > 1 ==> forall j :: from <= j < k ==> Pick(draws[j], n) == avoid
    decreases |draws| - from
  {
    if n <= 1 || Pick(draws[from], n) != avoid then from
    else ExitFrom(draws, n, avoid, from + 1)
  }

  /** The index the shuffle loop settles on. */
  function ShufflePick(draws: seq<real>, n: nat, avoid: int): int
    requires LoopExits(draws, n, avoid)
  {
    Pick(draws[ExitFrom(draws, n, avoid, 0)], n)
  }

  /** The shuffle pick is a valid index, and it differs from the cursor
      whenever the playlist has more than one track. */
  lemma ShufflePickSpec(draws: seq<real>, n: nat, avoid: int)
    requires n > 0 && UnitDraws(draws) && LoopExits(draws, n, avoid)
    ensures 0 <= ShufflePick(draws, n, avoid) < n
    ensures n > 1 ==> ShufflePick(draws, n, avoid) != avoid
  {
    var k := ExitFrom(draws, n, avoid, 0);
    PickInRange(draws[k], n);
  }

  /** The `do ... while (i === avoid && n > 1)` loop of `playNext` and
      `playPrevious`. */
  method DrawUntilDifferent(draws: seq<real>, n: nat, avoid: int) returns (pick: int)
    requires n > 0 && UnitDraws(draws) && LoopExits(draws, n, avoid)
    ensures pick == ShufflePick(draws, n, avoid)
    ensures 0 <= pick < n
    ensures n > 1 ==> pick != avoid
  {
    var i := 0;
    pick := Pick(draws[0], n);
    while pick == avoid && n > 1
      invariant 0 <= i < |draws| && pick == Pick(draws[i], n)
      invariant n > 1 ==> forall j :: 0 <= j < i ==> Pick(draws[j], n) == avoid
      invariant ExitFrom(draws, n, avoid, 0) == ExitFrom(draws, n, avoid, i)
      decreases |draws| - i
    {
      i := i + 1;
      pick := Pick(draws[i], n);
    }
    ShufflePickSpec(draws, n, avoid);
  }

  // ---------------------------------------------------------------------
  // Where next and previous go
  // ---------------------------------------------------------------------

  /** What a navigation request decides: nothing to play at all, the
      start or end of the playlist reached without repeat, or an index to
      hand to `playSongByIndex` (which still range-checks it). */
  datatype Step = NoPlaylist | Boundary | Target(index: int)

  /** Sequential next: `cursor + 1`, wrapping to 0 only under 'all'. */
  function SequentialNext(n: nat, cursor: int, repeat: RepeatMode): Step
  {
    if n == 0 then NoPlaylist
    else if cursor + 1 >= n then (if repeat == All then Target(0) else Boundary)
    else Target(cursor + 1)
  }

  /** Sequential previous: `cursor - 1`, wrapping to n - 1 only under 'all'. */
  function SequentialPrev(n: nat, cursor: int, repeat: RepeatMode): Step
  {
    if n == 0 then NoPlaylist
    else if cursor - 1 < 0 then (if repeat == All then Target(n - 1) else Boundary)
    else Target(cursor - 1)
  }

  predicate OracleFits(draws: seq<real>, n: nat, cursor: int, shuffle: bool)
  {
    shuffle && n > 0 ==> UnitDraws(draws) && LoopExits(draws, n, cursor)
  }

  /** The decision of `playNext` (js/navigation.js). */
  function NextStep(n: nat, cursor: int, shuffle: bool, repeat: RepeatMode, draws: seq<real>): Step
    requires OracleFits(draws, n, cursor, shuffle)
  {
    if n == 0 then NoPlaylist
    else if shuffle then Target(ShufflePick(draws, n, cursor))
    else SequentialNext(n, cursor, repeat)
  }

  /** The decision of `playPrevious`: under shuffle a fresh random pick,
      exactly as for next. */
  function PrevStep(n: nat, cursor: int, shuffle: bool, repeat: RepeatMode, draws: seq<real>): Step
    requires OracleFits(draws, n, cursor, shuffle)
  {
    if n == 0 then NoPlaylist
    else if shuffle then Target(ShufflePick(draws, n, cursor))
    else SequentialPrev(n, cursor, repeat)
  }

  /** Next and previous never leave the playlist: from any cursor that is
      -1 or a valid index they stop at a boundary or name a valid index;
      an empty playlist is reported and nothing else. */
  lemma StepsInRange(n: nat, cursor: int, shuffle: bool, repeat: RepeatMode, draws: seq<real>)
    requires OracleFits(draws, n, cursor, shuffle)
    requires -1 <= cursor < n
    ensures NextStep(n, cursor, shuffle, repeat, draws).NoPlaylist? <==> n == 0
    ensures PrevStep(n, cursor, shuffle, repeat, draws).NoPlaylist? <==> n == 0
    ensures NextStep(n, cursor, shuffle, repeat, draws).Target? ==> 0 <= NextStep(n, cursor, shuffle, repeat, draws).index < n
    ensures PrevStep(n, cursor, shuffle, repeat, draws).Target? ==> 0 <= PrevStep(n, cursor, shuffle, repeat, draws).index < n
    ensures shuffle && n > 1 ==> NextStep(n, cursor, shuffle, repeat, draws).index != cursor
    ensures shuffle && n > 1 ==> PrevStep(n, cursor, shuffle, repeat, draws).index != cursor
  {
    if shuffle && n > 0 {
      ShufflePickSpec(draws, n, cursor);
    }
  }

  /** Under 'all', sequential next and previous undo each other. */
  lemma NextPrevInverse(n: nat, c: int)
    requires 0 <= c < n
    ensures SequentialNext(n, c, All).Target? && SequentialPrev(n, c, All).Target?
    ensures SequentialPrev(n, SequentialNext(n, c, All).index, All) == Target(c)
    ensures SequentialNext(n, SequentialPrev(n, c, All).index, All) == Target(c)
  {
  }

  /** The cursor after `k` sequential `next` requests from `c`, as long as
      each one found a track (`Boundary` once one did not). */
  function Advance(n: nat, c: int, repeat: RepeatMode, k: nat): Step
  {
    if k == 0 then Target(c)
    else match Advance(n, c, repeat, k - 1)
      case Target(i) => SequentialNext(n, i, repeat)
      case other => other
  }

  /** Without repeat, k requests from track 0 visit track k for every k
      below n, and the n-th request reports the end of the playlist. */
  lemma {:induction false} AdvanceVisitsAll(n: nat, repeat: RepeatMode, k: nat)
    requires n > 0 && repeat != All && k <= n
    ensures k < n ==> Advance(n, 0, repeat, k) == Target(k)
    ensures k == n ==> Advance(n, 0, repeat, k) == Boundary
  {
    if k > 0 {
      AdvanceVisitsAll(n, repeat, k - 1);
    }
  }

  /** Under 'all', k requests from track 0 reach track k for k below n,
      and the n-th brings the cursor back to track 0. */
  lemma {:induction false} AdvanceWraps(n: nat, k: nat)
    requires n > 0 && k <= n
    ensures k < n ==> Advance(n, 0, All, k) == Target(k)
    ensures k == n ==> Advance(n, 0, All, k) == Target(0)
  {
    if k > 0 {
      AdvanceWraps(n, k - 1);
    }
  }

  /** Under 'all' the walk is periodic: n more requests change nothing. */
  lemma {:induction false} AdvancePeriodic(n: nat, k: nat)
    requires n > 0
    ensures Advance(n, 0, All, k + n) == Advance(n, 0, All, k)
  {
    if k == 0 {
      AdvanceWraps(n, n);
    } else {
      AdvancePeriodic(n, k - 1);
      assert k + n - 1 == (k - 1) + n;
    }
  }

  // ---------------------------------------------------------------------
  // The navigation buttons
  // ---------------------------------------------------------------------

  datatype Buttons = Buttons(prevDisabled: bool, nextDisabled: bool)

  /** What `updateNavigationButtons` sets on a non-empty playlist. */
  function ButtonState(n: nat, cursor: int, shuffle: bool, repeat: RepeatMode): Buttons
  {
    if shuffle || repeat == All then Buttons(false, false)
    else Buttons(cursor <= 0, cursor >= n - 1)
  }

  /** A button is disabled exactly when pressing it could not reach a
      track: on a non-empty playlist, with the cursor at -1 or on a track
      (or one past the end, for previous), next is disabled iff `playNext`
      stops at the end, and previous iff `playPrevious` stops at the start. */
  lemma ButtonsMatchNavigation(n: nat, cursor: int, shuffle: bool, repeat: RepeatMode, draws: seq<real>)
    requires n > 0 && OracleFits(draws, n, cursor, shuffle)
    ensures -1 <= cursor < n ==>
      (ButtonState(n, cursor, shuffle, repeat).nextDisabled <==> NextStep(n, cursor, shuffle, repeat, draws) == Boundary)
    ensures -1 <= cursor <= n ==>
      (ButtonState(n, cursor, shuffle, repeat).prevDisabled <==> PrevStep(n, cursor, shuffle, repeat, draws) == Boundary)
  {
  }

  /** The position of the first track whose file is `file`, or -1:
      `findIndex(song => song.file === file)`. */
  function FindIndex(playlist: seq<Track>, file: string): (r: int)
    ensures -1 <= r < |playlist|
    ensures r == -1 <==> forall i :: 0 <= i < |playlist| ==> playlist[i].file != file
    ensures r >= 0 ==> playlist[r].file == file && forall j :: 0 <= j < r ==> playlist[j].file != file
  {
    if playlist == [] then -1
    else if playlist[0].file == file then 0
    else
      var r := FindIndex(playlist[1..], file);
      if r == -1 then -1 else r + 1
  }

  /** Whether `playSongByIndex` returns true for an in-range track: the
      audio start must succeed, and a track without lyrics then calls
      `window.karaoke.clearLyrics()`, which a `KaraokeOverlay` does not
      define, so the call throws inside the `try`. */
  function StartSucceeds(t: Track, audioOk: bool, karaokePresent: bool): bool
  {
    audioOk && (t.lyrics != "" || !karaokePresent)
  }

  /** The lyric file fetched after a successful audio start. */
  function LyricsFetch(t: Track, audioOk: bool): Option<string>
  {
    if audioOk && t.lyrics != "" then Some(t.lyrics) else None
  }

  /** The page globals of js/navigation.js and the two navigation buttons. */
  class Player {
    var playlist: seq<Track>
    var cursor: int
    var shuffle: bool
    var repeat: RepeatMode
    var prevDisabled: bool
    var nextDisabled: bool
    /** Both `#prev-btn` and `#next-btn` exist in the page. */
    const buttonsPresent: bool

    constructor (buttonsPresent: bool)
      ensures playlist == [] && cursor == -1 && !shuffle && repeat == Unset
      ensures !prevDisabled && !nextDisabled
      ensures this.buttonsPresent == buttonsPresent
    {
      playlist := [];
      cursor := -1;
      shuffle := false;
      repeat := Unset;
      prevDisabled, nextDisabled := false, false;
      this.buttonsPresent := buttonsPresent;
    }

    /** `updateCurrentPlaylist`: the playlist is replaced; the cursor is
        left as it was, even if it no longer fits. */
    method UpdateCurrentPlaylist(songs: seq<Track>)
      modifies this`playlist
      ensures playlist == songs
    {
      playlist := songs;
    }

    /** `findCurrentSongIndex`: the cursor moves to the first track with
        that file, or to -1. */
    method FindCurrentSongIndex(file: string) returns (index: int)
      modifies this`cursor
      ensures index == cursor == FindIndex(playlist, file)
    {
      index := FindIndex(playlist, file);
      cursor := index;
    }

    /** `playSongByIndex`. An out-of-range index is refused and changes
        nothing. Otherwise the cursor moves to the index before playback is
        attempted and stays there whatever happens next; a fetch of the
        lyric file is requested when the audio started and the track has
        one. */
    method PlaySongByIndex(index: int, audioOk: bool, karaokePresent: bool) returns (ok: bool, fetch: Option<string>)
      modifies this`cursor
      ensures index < 0 || index >= |playlist| ==> !ok && fetch == None && cursor == old(cursor)
      ensures 0 <= index < |playlist| ==>
        cursor == index
        && ok == StartSucceeds(playlist[index], audioOk, karaokePresent)
        && fetch == LyricsFetch(playlist[index], audioOk)
    {
      if index < 0 || index >= |playlist| {
        return false, None;
      }
      var song := playlist[index];
      cursor := index;
      if !audioOk {
        return false, None;
      }
      if song.lyrics != "" {
        return true, Some(song.lyrics);
      }
      if karaokePresent {
        // clearLyrics is not a method of KaraokeOverlay: the call throws
        return false, None;
      }
      return true, None;
    }

    /** `updateNavigationButtons`: nothing happens without both buttons or
        on an empty playlist. */
    method UpdateNavigationButtons()
      modifies this`prevDisabled, this`nextDisabled
      ensures !buttonsPresent || |playlist| == 0 ==>
        prevDisabled == old(prevDisabled) && nextDisabled == old(nextDisabled)
      ensures buttonsPresent && |playlist| > 0 ==>
        Buttons(prevDisabled, nextDisabled) == ButtonState(|playlist|, cursor, shuffle, repeat)
    {
      if !buttonsPresent || |playlist| == 0 {
        return;
      }
      if shuffle || repeat == All {
        prevDisabled, nextDisabled := false, false;
        return;
      }
      prevDisabled := cursor <= 0;
      nextDisabled := cursor >= |playlist| - 1;
    }

    /** `playNext`: decide the step, play it, and refresh the buttons when
        playback reported success. */
    method PlayNext(draws: seq<real>, audioOk: bool, karaokePresent: bool)
      returns (step: Step, ok: bool, fetch: Option<string>)
      requires OracleFits(draws, |playlist|, cursor, shuffle)
      modifies this`cursor, this`prevDisabled, this`nextDisabled
      ensures step == NextStep(|playlist|, old(cursor), shuffle, repeat, draws)
      ensures !step.Target? ==>
        !ok && fetch == None && cursor == old(cursor)
        && prevDisabled == old(prevDisabled) && nextDisabled == old(nextDisabled)
      ensures step.Target? ==> Navigated(step.index, old(cursor), old(prevDisabled), old(nextDisabled), audioOk, karaokePresent, ok, fetch)
    {
      if |playlist| == 0 {
        return NoPlaylist, false, None;
      }
      var nextIndex: int;
      if shuffle {
        nextIndex := DrawUntilDifferent(draws, |playlist|, cursor);
      } else {
        nextIndex := cursor + 1;
        if nextIndex >= |playlist| {
          if repeat == All {
            nextIndex := 0;
          } else {
            return Boundary, false, None;
          }
        }
      }
      step := Target(nextIndex);
      ok, fetch := PlaySongByIndex(nextIndex, audioOk, karaokePresent);
      if ok {
        UpdateNavigationButtons();
      }
    }

    /** `playPrevious`: the mirror of `PlayNext`. */
    method PlayPrevious(draws: seq<real>, audioOk: bool, karaokePresent: bool)
      returns (step: Step, ok: bool, fetch: Option<string>)
      requires OracleFits(draws, |playlist|, cursor, shuffle)
      modifies this`cursor, this`prevDisabled, this`nextDisabled
      ensures step == PrevStep(|playlist|, old(cursor), shuffle, repeat, draws)
      ensures !step.Target? ==>
        !ok && fetch == None && cursor == old(cursor)
        && prevDisabled == old(prevDisabled) && nextDisabled == old(nextDisabled)
      ensures step.Target? ==> Navigated(step.index, old(cursor), old(prevDisabled), old(nextDisabled), audioOk, karaokePresent, ok, fetch)
    {
      if |playlist| == 0 {
        return NoPlaylist, false, None;
      }
      var prevIndex: int;
      if shuffle {
        prevIndex := DrawUntilDifferent(draws, |playlist|, cursor);
      } else {
        prevIndex := cursor - 1;
        if prevIndex < 0 {
          if repeat == All {
            prevIndex := |playlist| - 1;
          } else {
            return Boundary, false, None;
          }
        }
      }
      step := Target(prevIndex);
      ok, fetch := PlaySongByIndex(prevIndex, audioOk, karaokePresent);
      if ok {
        UpdateNavigationButtons();
      }
    }

    /** The state after `playSongByIndex(index)` followed, on success, by
        `updateNavigationButtons()`: cursor and result as `PlaySongByIndex`
        states, and the buttons refreshed only when the result is true. */
    ghost predicate Navigated(index: int, cursor0: int, prev0: bool, next0: bool,
                              audioOk: bool, karaokePresent: bool, ok: bool, fetch: Option<string>)
      reads this
    {
      (index < 0 || index >= |playlist| ==> !ok && fetch == None && cursor == cursor0)
      && (0 <= index < |playlist| ==>
            cursor == index
            && ok == StartSucceeds(playlist[index], audioOk, karaokePresent)
            && fetch == LyricsFetch(playlist[index], audioOk))
      && (ok && buttonsPresent ==> Buttons(prevDisabled, nextDisabled) == ButtonState(|playlist|, cursor, shuffle, repeat))
      && (!ok ==> prevDisabled == prev0 && nextDisabled == next0)
    }

    /** Neither the cursor nor the buttons changed since the old state. */
    twostate predicate Untouched()
      reads this
    {
      cursor == old(cursor) && prevDisabled == old(prevDisabled) && nextDisabled == old(nextDisabled)
    }

    /** A click on the playlist entry at `index` (`renderPlaylistWithNavigation`). */
    method SelectTrack(index: int, audioOk: bool, karaokePresent: bool) returns (ok: bool, fetch: Option<string>)
      modifies this`cursor, this`prevDisabled, this`nextDisabled
      ensures Navigated(index, old(cursor), old(prevDisabled), old(nextDisabled), audioOk, karaokePresent, ok, fetch)
    {
      ok, fetch := PlaySongByIndex(index, audioOk, karaokePresent);
      if ok {
        UpdateNavigationButtons();
      }
    }

    /** The state part of `renderPlaylistWithNavigation`: the playlist is
        replaced and the buttons refreshed; the cursor is kept. */
    method RenderPlaylist(songs: seq<Track>)
      modifies this`playlist, this`prevDisabled, this`nextDisabled
      ensures playlist == songs
      ensures !buttonsPresent || |songs| == 0 ==>
        prevDisabled == old(prevDisabled) && nextDisabled == old(nextDisabled)
      ensures buttonsPresent && |songs| > 0 ==>
        Buttons(prevDisabled, nextDisabled) == ButtonState(|songs|, cursor, shuffle, repeat)
    {
      UpdateCurrentPlaylist(songs);
      UpdateNavigationButtons();
    }

    /** `window.toggleShuffle`: flips the flag, refreshes the buttons and
        returns the new flag. */
    method ToggleShuffle() returns (on: bool)
      modifies this`shuffle, this`prevDisabled, this`nextDisabled
      ensures shuffle == !old(shuffle) && on == shuffle
      ensures !buttonsPresent || |playlist| == 0 ==>
        prevDisabled == old(prevDisabled) && nextDisabled == old(nextDisabled)
      ensures buttonsPresent && |playlist| > 0 ==>
        Buttons(prevDisabled, nextDisabled) == ButtonState(|playlist|, cursor, shuffle, repeat)
    {
      shuffle := !shuffle;
      UpdateNavigationButtons();
      on := shuffle;
    }

    /** `window.toggleRepeat`: the next mode in 'off', 'all', 'one', with
        the buttons refreshed. */
    method ToggleRepeat() returns (mode: RepeatMode)
      modifies this`repeat, this`prevDisabled, this`nextDisabled
      ensures repeat == ToggledRepeat(old(repeat)) && mode == repeat
      ensures !buttonsPresent || |playlist| == 0 ==>
        prevDisabled == old(prevDisabled) && nextDisabled == old(nextDisabled)
      ensures buttonsPresent && |playlist| > 0 ==>
        Buttons(prevDisabled, nextDisabled) == ButtonState(|playlist|, cursor, shuffle, repeat)
    {
      var modes := RepeatModes;
      var currentIndex := RepeatIndex(repeat);
      repeat := modes[(currentIndex + 1) % |modes|];
      UpdateNavigationButtons();
      mode := repeat;
    }

    /** The `ended` listener of js/navigation.js: under 'one' the same
        track is played again and nothing else changes (a failed replay is
        only logged); otherwise it is `playNext`. */
    method OnEnded(draws: seq<real>, audioOk: bool, karaokePresent: bool)
      returns (replayed: bool, step: Step, ok: bool, fetch: Option<string>)
      requires OracleFits(draws, |playlist|, cursor, shuffle)
      modifies this`cursor, this`prevDisabled, this`nextDisabled
      ensures replayed <==> old(repeat) == One
      ensures replayed ==>
        cursor == old(cursor) && fetch == None
        && prevDisabled == old(prevDisabled) && nextDisabled == old(nextDisabled)
      ensures !replayed ==> step == NextStep(|playlist|, old(cursor), shuffle, repeat, draws)
      ensures !replayed && !step.Target? ==> cursor == old(cursor) && !ok
      ensures !replayed && step.Target? ==>
        Navigated(step.index, old(cursor), old(prevDisabled), old(nextDisabled), audioOk, karaokePresent, ok, fetch)
    {
      if repeat == One {
        return true, NoPlaylist, false, None;
      }
      replayed := false;
      step, ok, fetch := PlayNext(draws, audioOk, karaokePresent);
    }
  }
}
