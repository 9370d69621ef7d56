/** The playlist and time-display parts of js/audioVisualizer.js:
    `formatTime`, and the simple navigation `goToNextSong` with its own
    repeat flag `repeatPlaylist`, working on the navigation driver's
    playlist globals. */
module AudioVisualizer {
  import opened JsText
  import opened Playlist

  /** A JavaScript number as the media element reports it. */
  datatype JsNumber = NaN | PosInfinity | NegInfinity | Finite(value: real)

  /** Truncation toward zero. */
  function Trunc(x: real): int
  {
    if x >= 0.0 then x.Floor else -((-x).Floor)
  }

  /** JavaScript's `x % 60` on a finite number: the remainder takes the
      sign of the dividend. */
  function JsRem60(x: real): real
  {
    x - 60.0 * Trunc(x / 60.0) as real
  }

  /** `${secs < 10 ? '0' + secs : secs}`. */
  function SecondsField(secs: int): string
  {
    if secs < 10 then "0" + IntToString(secs) else IntToString(secs)
  }

  /** `formatTime`. `Math.floor` of an infinity stays infinite and
      `Infinity % 60` is NaN, which gives the two infinite cases. */
  function FormatTime(t: JsNumber): string
  {
    match t
    case NaN => "0:00"
    case PosInfinity => "Infinity:NaN"
    case NegInfinity => "-Infinity:NaN"
    case Finite(s) => IntToString((s / 60.0).Floor) + ":" + SecondsField(JsRem60(s).Floor)
  }

  /** For a non-negative time the two `Math.floor`s give the whole minutes
      and the whole seconds left over. */
  lemma FloorSplit(s: real)
    requires s >= 0.0
    ensures (s / 60.0).Floor == s.Floor / 60
    ensures JsRem60(s).Floor == s.Floor % 60
  {
    var f := s.Floor;
    var q, r := f / 60, f % 60;
    assert f == 60 * q + r;
    assert (q as real) <= s / 60.0 < (q + 1) as real;
    assert Trunc(s / 60.0) == q;
    assert (r as real) <= JsRem60(s) < (r + 1) as real;
  }

  /** Reads an `M:SS` string: decimal minutes, a colon, exactly two
      decimal digits of seconds below 60; the total in seconds. */
  function ParseClock(str: string): Option<nat>
  {
    var k := IndexOf(str, ':');
    if k == |str| then None
    else
      var m, ss := str[..k], str[k + 1..];
      if m == [] || !AllDigits(m) || |ss| != 2 || !AllDigits(ss) || DigitsValue(ss) >= 60 then None
      else Some(DigitsValue(m) * 60 + DigitsValue(ss))
  }

  /** The seconds field of a non-negative time is two digits, zero-padded
      below ten, and reads back as the value. */
  lemma SecondsFieldTwoDigits(secs: int)
    requires 0 <= secs < 60
    ensures |SecondsField(secs)| == 2 && AllDigits(SecondsField(secs))
    ensures DigitsValue(SecondsField(secs)) == secs
    ensures secs < 10 ==> SecondsField(secs)[0] == '0'
  {
    NatToStringLength(secs);
    NatToStringRoundTrip(secs);
    var d := NatToString(secs);
    if secs < 10 {
      var f := SecondsField(secs);
      assert f == ['0'] + d;
      assert f[..1] == "0";
    }
  }

  /** What `formatTime` shows for a non-negative time is the whole number
      of seconds: unpadded minutes, a colon and two-digit seconds below
      60, reading back as the time with its fraction dropped. */
  lemma FormatTimeReadsBack(s: real)
    requires s >= 0.0
    ensures ParseClock(FormatTime(Finite(s))) == Some(s.Floor)
    ensures FormatTime(Finite(s)) == NatToString(s.Floor / 60) + ":" + SecondsField(s.Floor % 60)
  {
    FloorSplit(s);
    var m, secs := s.Floor / 60, s.Floor % 60;
    var ms, ss := NatToString(m), SecondsField(secs);
    var str := ms + ":" + ss;
    assert FormatTime(Finite(s)) == str;
    SecondsFieldTwoDigits(secs);
    NatToStringRoundTrip(m);
    assert forall i :: 0 <= i < |ms| ==> str[i] == ms[i] && str[i] != ':';
    assert str[|ms|] == ':';
    assert IndexOf(str, ':') == |ms|;
    assert str[..|ms|] == ms && str[|ms| + 1..] == ss;
  }

  /** `formatTime` truncates: a time shows the same as its whole seconds. */
  lemma FormatTimeTruncates(s: real)
    requires s >= 0.0
    ensures FormatTime(Finite(s)) == FormatTime(Finite(s.Floor as real))
  {
    FormatTimeReadsBack(s);
    FormatTimeReadsBack(s.Floor as real);
  }

  /** The documented cases: NaN shows "0:00" and 59.99 s shows "0:59", not
      "1:00". */
  lemma FormatTimeExamples()
    ensures FormatTime(NaN) == "0:00"
    ensures FormatTime(Finite(59.99)) == "0:59"
    ensures FormatTime(Finite(125.0)) == "2:05"
  {
    FloorSplit(59.99);
    assert (59.99).Floor == 59;
    assert IntToString(0) == "0";
    assert SecondsField(59) == "59" by {
      assert NatToString(59) == NatToString(5) + [DigitChar(9)];
    }
    FloorSplit(125.0);
    assert (125.0).Floor == 125;
    assert IntToString(2) == "2";
    assert SecondsField(5) == "05";
  }

  /** The decision of `goToNextSong`: sequential next, where the separate
      flag `repeatPlaylist` plays the part of repeat 'all'. */
  function GoToNextStep(n: nat, cursor: int, repeatPlaylist: bool): Step
  {
    SequentialNext(n, cursor, if repeatPlaylist then All else Off)
  }

  class Visualizer {
    /** `repeatPlaylist`, independent of the navigation driver's repeat mode. */
    var repeatPlaylist: bool
    const player: Player

    /** No file of this model declares `repeatPlaylist`; its first value is
        a parameter. */
    constructor (player: Player, repeatPlaylist: bool)
      ensures this.player == player && this.repeatPlaylist == repeatPlaylist
    {
      this.player := player;
      this.repeatPlaylist := repeatPlaylist;
    }

    /** `goToNextSong`. Nothing happens on an empty playlist, at the end
        without `repeatPlaylist`, or for a target before the start (where
        `currentPlaylist[i]` is undefined). Otherwise the cursor moves
        before the audio start is awaited and stays there if it fails; the
        lyric file is fetched only when a karaoke overlay exists. */
    method GoToNextSong(audioOk: bool, karaokePresent: bool) returns (step: Step, started: bool, fetch: Option<string>)
      modifies player`cursor
      ensures step == GoToNextStep(|player.playlist|, old(player.cursor), repeatPlaylist)
      ensures !(step.Target? && 0 <= step.index < |player.playlist|) ==>
        player.cursor == old(player.cursor) && !started && fetch == None
      ensures step.Target? && 0 <= step.index < |player.playlist| ==>
        player.cursor == step.index && started == audioOk
        && fetch == (if karaokePresent then LyricsFetch(player.playlist[step.index], audioOk) else None)
    {
      var n := |player.playlist|;
      if n == 0 {
        return NoPlaylist, false, None;
      }
      var nextIndex := player.cursor + 1;
      if nextIndex >= n {
        if repeatPlaylist {
          nextIndex := 0;
        } else {
          return Boundary, false, None;
        }
      }
      step := Target(nextIndex);
      started, fetch := false, None;
      if 0 <= nextIndex < n {
        var song := player.playlist[nextIndex];
        player.cursor := nextIndex;
        if audioOk {
          started := true;
          if song.lyrics != "" && karaokePresent {
            fetch := Some(song.lyrics);
          }
        }
      }
    }

    /** `setCurrentPlaylist(songs, startIndex)`: the cursor is set with no
        range check (`startIndex` defaults to 0 in the source). */
    method SetCurrentPlaylist(songs: seq<Track>, startIndex: int)
      modifies player`playlist, player`cursor
      ensures player.playlist == songs && player.cursor == startIndex
    {
      player.playlist := songs;
      player.cursor := startIndex;
    }

    /** `window.toggleRepeatPlaylist`: flips the flag and returns it. */
    method ToggleRepeatPlaylist() returns (on: bool)
      modifies this`repeatPlaylist
      ensures repeatPlaylist == !old(repeatPlaylist) && on == repeatPlaylist
    {
      repeatPlaylist := !repeatPlaylist;
      on := repeatPlaylist;
    }
  }
}
