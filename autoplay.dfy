/** The auto-play driver of js/autoplay.js: what happens when a track ends
    on its own. It works on the same playlist globals as the navigation
    driver (`Playlist.Player`) and adds its own `autoPlayEnabled` and
    `autoPlayDelay`. */
module AutoPlay {
  import opened JsText
  import opened Playlist

  /** The random draws are needed only for a shuffle over two tracks or
      more: a one-track playlist is answered with 0 without drawing. */
  predicate AutoOracleFits(draws: seq<real>, n: nat, cursor: int, shuffle: bool)
  {
    shuffle && n > 1 ==> UnitDraws(draws) && LoopExits(draws, n, cursor)
  }

  /** The answer of `getNextSongIndex`: -1 for "no next track". */
  function NextSongIndex(n: nat, cursor: int, shuffle: bool, repeat: RepeatMode, draws: seq<real>): int
    requires AutoOracleFits(draws, n, cursor, shuffle)
  {
    if n == 0 then -1
    else if shuffle then (if n == 1 then 0 else ShufflePick(draws, n, cursor))
    else if cursor + 1 >= n then (if repeat == All then 0 else -1)
    else cursor + 1
  }

  /** For a cursor at -1 or on a track the answer is -1 or a valid index;
      an empty playlist gives -1; a shuffle gives 0 on one track and
      otherwise a track other than the current one. */
  lemma NextSongIndexInRange(n: nat, cursor: int, shuffle: bool, repeat: RepeatMode, draws: seq<real>)
    requires AutoOracleFits(draws, n, cursor, shuffle)
    ensures n == 0 ==> NextSongIndex(n, cursor, shuffle, repeat, draws) == -1
    ensures shuffle && n == 1 ==> NextSongIndex(n, cursor, shuffle, repeat, draws) == 0
    ensures shuffle && n > 1 ==>
      0 <= NextSongIndex(n, cursor, shuffle, repeat, draws) < n
      && NextSongIndex(n, cursor, shuffle, repeat, draws) != cursor
    ensures cursor >= -1 ==>
      NextSongIndex(n, cursor, shuffle, repeat, draws) == -1
      || 0 <= NextSongIndex(n, cursor, shuffle, repeat, draws) < n
  {
    if shuffle && n > 1 {
      ShufflePickSpec(draws, n, cursor);
    }
  }

  /** Auto-play and the next button agree: on a non-empty playlist and
      with the cursor at -1 or above, `getNextSongIndex` gives -1 exactly
      when `playNext` stops at the end, and otherwise the index `playNext`
      plays. (At cursor -2 they part: `playNext` targets -1, which
      `playSongByIndex` refuses, while -1 here means "no next track".) */
  lemma AgreesWithPlayNext(n: nat, cursor: int, shuffle: bool, repeat: RepeatMode, draws: seq<real>)
    requires n > 0 && cursor >= -1 && OracleFits(draws, n, cursor, shuffle)
    ensures AutoOracleFits(draws, n, cursor, shuffle)
    ensures NextStep(n, cursor, shuffle, repeat, draws)
      == (var r := NextSongIndex(n, cursor, shuffle, repeat, draws); if r == -1 then Boundary else Target(r))
  {
    if shuffle {
      ShufflePickSpec(draws, n, cursor);
      assert NextStep(n, cursor, shuffle, repeat, draws) == Target(ShufflePick(draws, n, cursor));
    }
  }

  /** What `handleSongEnd` did. */
  datatype EndOutcome =
    | AutoPlayOff                      // auto-play disabled: nothing happens
    | Replayed                         // repeat 'one': rewound to 0 and played again
    | ReplayFailed(next: int, ok: bool) // the replay threw; the fallback index (-1: none) and its result
    | PlaylistEnd                      // no next track: the end-of-playlist path
    | Deferred(index: int, delay: int) // `playNextSong(index)` scheduled after `delay` ms
    | PlayedNow(index: int, ok: bool)  // `playNextSong(index)` run at once

  function Max(a: int, b: int): int { if a >= b then a else b }

  class AutoPlayer {
    /** `autoPlayEnabled` of js/autoplay.js (the visualizer's flag of the
        same name is separate state). */
    var enabled: bool
    /** `autoPlayDelay`, in milliseconds. */
    var delay: int
    const player: Player

    constructor (player: Player)
      ensures enabled && delay == 1000 && this.player == player
    {
      enabled := true;
      delay := 1000;
      this.player := player;
    }

    /** `getNextSongIndex`, with its retry loop. */
    method GetNextSongIndex(draws: seq<real>) returns (r: int)
      requires AutoOracleFits(draws, |player.playlist|, player.cursor, player.shuffle)
      ensures r == NextSongIndex(|player.playlist|, player.cursor, player.shuffle, player.repeat, draws)
    {
      var n := |player.playlist|;
      if n == 0 {
        return -1;
      }
      if player.shuffle {
        if n == 1 {
          r := 0;
        } else {
          r := DrawUntilDifferent(draws, n, player.cursor);
        }
      } else {
        r := player.cursor + 1;
        if r >= n {
          if player.repeat == All {
            r := 0;
          } else {
            return -1;
          }
        }
      }
    }

    /** `playNextSong`: play the index and, on success, refresh the buttons. */
    method PlayNextSong(index: int, audioOk: bool, karaokePresent: bool) returns (ok: bool, fetch: Option<string>)
      modifies player`cursor, player`prevDisabled, player`nextDisabled
      ensures player.Navigated(index, old(player.cursor), old(player.prevDisabled), old(player.nextDisabled),
                               audioOk, karaokePresent, ok, fetch)
    {
      ok, fetch := player.PlaySongByIndex(index, audioOk, karaokePresent);
      if ok {
        player.UpdateNavigationButtons();
      }
    }

    /** `repeatCurrentSong`: rewind and play; if that throws, fall back to
        the next index, unless there is none. */
    method RepeatCurrentSong(replayOk: bool, draws: seq<real>, audioOk: bool, karaokePresent: bool)
      returns (outcome: EndOutcome, fetch: Option<string>)
      requires AutoOracleFits(draws, |player.playlist|, player.cursor, player.shuffle)
      modifies player`cursor, player`prevDisabled, player`nextDisabled
      ensures replayOk ==> outcome == Replayed && fetch == None && player.Untouched()
      ensures !replayOk ==>
        var r := NextSongIndex(|player.playlist|, old(player.cursor), player.shuffle, player.repeat, draws);
        outcome.ReplayFailed? && outcome.next == r
        && (r == -1 ==> !outcome.ok && fetch == None && player.Untouched())
        && (r != -1 ==> player.Navigated(r, old(player.cursor), old(player.prevDisabled), old(player.nextDisabled),
                                         audioOk, karaokePresent, outcome.ok, fetch))
    {
      if replayOk {
        return Replayed, None;
      }
      var next := GetNextSongIndex(draws);
      var ok := false;
      fetch := None;
      if next != -1 {
        ok, fetch := PlayNextSong(next, audioOk, karaokePresent);
      }
      outcome := ReplayFailed(next, ok);
    }

    /** `handleSongEnd`, the `ended` listener of js/autoplay.js. A delayed
        play is reported as `Deferred` and leaves the state for the timer
        callback, `PlayNextSong`. */
    method HandleSongEnd(replayOk: bool, draws: seq<real>, audioOk: bool, karaokePresent: bool)
      returns (outcome: EndOutcome, fetch: Option<string>)
      requires AutoOracleFits(draws, |player.playlist|, player.cursor, player.shuffle)
      modifies player`cursor, player`prevDisabled, player`nextDisabled
      ensures !enabled ==> outcome == AutoPlayOff && fetch == None && player.Untouched()
      ensures enabled && player.repeat == One ==> outcome.Replayed? || outcome.ReplayFailed?
      ensures enabled && player.repeat == One && replayOk ==> outcome == Replayed && fetch == None && player.Untouched()
      ensures enabled && player.repeat == One && !replayOk ==>
        var r := NextSongIndex(|player.playlist|, old(player.cursor), player.shuffle, player.repeat, draws);
        outcome.ReplayFailed? && outcome.next == r
        && (r == -1 ==> !outcome.ok && fetch == None && player.Untouched())
        && (r != -1 ==> player.Navigated(r, old(player.cursor), old(player.prevDisabled), old(player.nextDisabled),
                                         audioOk, karaokePresent, outcome.ok, fetch))
      ensures enabled && player.repeat != One ==>
        var r := NextSongIndex(|player.playlist|, old(player.cursor), player.shuffle, player.repeat, draws);
        (r == -1 ==> outcome == PlaylistEnd && fetch == None && player.Untouched())
        && (r != -1 && delay > 0 ==> outcome == Deferred(r, delay) && fetch == None && player.Untouched())
        && (r != -1 && delay <= 0 ==>
              outcome.PlayedNow? && outcome.index == r
              && player.Navigated(r, old(player.cursor), old(player.prevDisabled), old(player.nextDisabled),
                                  audioOk, karaokePresent, outcome.ok, fetch))
    {
      if !enabled {
        return AutoPlayOff, None;
      }
      if player.repeat == One {
        outcome, fetch := RepeatCurrentSong(replayOk, draws, audioOk, karaokePresent);
        return;
      }
      var nextIndex := GetNextSongIndex(draws);
      if nextIndex == -1 {
        return PlaylistEnd, None;
      }
      if delay > 0 {
        return Deferred(nextIndex, delay), None;
      }
      var ok;
      ok, fetch := PlayNextSong(nextIndex, audioOk, karaokePresent);
      outcome := PlayedNow(nextIndex, ok);
    }

    /** `window.toggleAutoPlay`. */
    method ToggleAutoPlay() returns (on: bool)
      modifies this`enabled
      ensures enabled == !old(enabled) && on == enabled
    {
      enabled := !enabled;
      on := enabled;
    }

    /** `window.setAutoPlayDelay`: a negative delay is stored as 0. */
    method SetAutoPlayDelay(ms: int) returns (stored: int)
      modifies this`delay
      ensures stored == delay && delay >= 0
      ensures delay == (if ms < 0 then 0 else ms)
    {
      delay := Max(0, ms);
      stored := delay;
    }

    /** `window.replayPlaylist`: start the first track again (its result is
        not looked at, and the buttons are not refreshed). */
    method ReplayPlaylist(audioOk: bool, karaokePresent: bool) returns (fetch: Option<string>)
      modifies player`cursor
      ensures |player.playlist| == 0 ==> player.cursor == old(player.cursor) && fetch == None
      ensures |player.playlist| > 0 ==> player.cursor == 0 && fetch == LyricsFetch(player.playlist[0], audioOk)
    {
      fetch := None;
      if |player.playlist| > 0 {
        var started;
        started, fetch := player.PlaySongByIndex(0, audioOk, karaokePresent);
      }
    }
  }
}
