/** The music screen: a cursor over a non-empty playlist with wrap-around
    next/previous, direct selection of an entry, and a play/pause flag. */
module MusicScreen {
  import opened Types

  /** `(i + 1) % n`: the entry after `i`, wrapping from the last one to the first. */
  function NextIndex(i: int, n: nat): (j: int)
    requires 0 <= i < n
    ensures 0 <= j < n
    ensures j == if i == n - 1 then 0 else i + 1
  {
    (i + 1) % n
  }

  /** `(i - 1 + n) % n`: the entry before `i`, wrapping from the first one to the last. */
  function PrevIndex(i: int, n: nat): (j: int)
    requires 0 <= i < n
    ensures 0 <= j < n
    ensures j == if i == 0 then n - 1 else i - 1
  {
    (i - 1 + n) % n
  }

  /** Previous undoes next, and next undoes previous. */
  lemma PrevNextInverse(i: int, n: nat)
    requires 0 <= i < n
    ensures PrevIndex(NextIndex(i, n), n) == i
    ensures NextIndex(PrevIndex(i, n), n) == i
  {
  }

  /** Where the cursor is after `k` presses of next. */
  function NextTimes(i: int, n: nat, k: nat): (j: int)
    requires 0 <= i < n
    ensures 0 <= j < n
    decreases k
  {
    if k == 0 then i else NextTimes(NextIndex(i, n), n, k - 1)
  }

  lemma {:induction false} NextTimesWithoutWrap(i: int, n: nat, k: nat)
    requires 0 <= i && i + k < n
    ensures NextTimes(i, n, k) == i + k
    decreases k
  {
    if k > 0 {
      NextTimesWithoutWrap(i + 1, n, k - 1);
    }
  }

  lemma {:induction false} NextTimesAdd(i: int, n: nat, a: nat, b: nat)
    requires 0 <= i < n
    ensures NextTimes(i, n, a + b) == NextTimes(NextTimes(i, n, a), n, b)
    decreases a
  {
    if a > 0 {
      NextTimesAdd(NextIndex(i, n), n, a - 1, b);
    }
  }

  /** Pressing next once per entry of the playlist comes back to the starting entry. */
  lemma NextTimesFullCycle(i: int, n: nat)
    requires 0 <= i < n
    ensures NextTimes(i, n, n) == i
  {
    var a := n - 1 - i;
    NextTimesWithoutWrap(i, n, a);
    NextTimesAdd(i, n, a, 1 + i);
    NextTimesAdd(n - 1, n, 1, i);
    assert NextTimes(n - 1, n, 1) == 0;
    NextTimesWithoutWrap(0, n, i);
  }

  /** One rendered entry of the playlist. */
  datatype PlaylistRow = PlaylistRow(song: Song, highlighted: bool, playingIndicator: bool)

  /** The playlist as rendered: entry `index` is highlighted when
      `index === currentTrackIndex`, and shows the playing indicator when in
      addition the music is playing. */
  function Rows(playlist: seq<Song>, current: int, playing: bool): (rows: seq<PlaylistRow>)
    ensures |rows| == |playlist|
  {
    seq(|playlist|, i requires 0 <= i < |playlist| =>
      PlaylistRow(playlist[i], i == current, i == current && playing))
  }

  /** The rows list the playlist in order, exactly one row (the current
      entry's) is highlighted, and the playing indicator is shown on that row
      alone and only while playing. */
  lemma RowsHighlightCurrent(playlist: seq<Song>, current: int, playing: bool)
    requires 0 <= current < |playlist|
    ensures var rows := Rows(playlist, current, playing);
      (forall i :: 0 <= i < |rows| ==> rows[i].song == playlist[i])
      && rows[current].highlighted
      && (forall i :: 0 <= i < |rows| && rows[i].highlighted ==> i == current)
      && (forall i :: 0 <= i < |rows| ==> (rows[i].playingIndicator <==> rows[i].highlighted && playing))
  {
  }

  /** The screen's state cells `currentTrackIndex` and `isPlaying`, over the
      `playlist` prop. */
  class Player {
    const playlist: seq<Song>
    var currentTrackIndex: int
    var isPlaying: bool

    /** The cursor points at an entry of the playlist. */
    ghost predicate Valid()
      reads this
    {
      0 <= currentTrackIndex < |playlist|
    }

    /** The first render: the first entry, not playing. The player card reads
        `playlist[0]`, so the playlist must not be empty. */
    constructor (playlist: seq<Song>)
      requires |playlist| > 0
      ensures Valid()
      ensures this.playlist == playlist && currentTrackIndex == 0 && !isPlaying
    {
      this.playlist := playlist;
      currentTrackIndex := 0;
      isPlaying := false;
    }

    /** `currentTrack`, shown on the player card. */
    function CurrentTrack(): (s: Song)
      reads this
      requires Valid()
      ensures s in playlist
    {
      playlist[currentTrackIndex]
    }

    /** The playlist card as rendered from the current state. */
    function PlaylistView(): (rows: seq<PlaylistRow>)
      reads this
      ensures |rows| == |playlist|
      ensures forall i :: 0 <= i < |rows| ==> rows[i].song == playlist[i]
      ensures forall i :: 0 <= i < |rows| ==> (rows[i].highlighted <==> i == currentTrackIndex)
    {
      Rows(playlist, currentTrackIndex, isPlaying)
    }

    method HandleNext()
      requires Valid()
      modifies this`currentTrackIndex
      ensures Valid()
      ensures currentTrackIndex == NextIndex(old(currentTrackIndex), |playlist|)
      ensures isPlaying == old(isPlaying)
    {
      currentTrackIndex := (currentTrackIndex + 1) % |playlist|;
    }

    method HandlePrev()
      requires Valid()
      modifies this`currentTrackIndex
      ensures Valid()
      ensures currentTrackIndex == PrevIndex(old(currentTrackIndex), |playlist|)
      ensures isPlaying == old(isPlaying)
    {
      currentTrackIndex := (currentTrackIndex - 1 + |playlist|) % |playlist|;
    }

    method HandlePlayPause()
      requires Valid()
      modifies this`isPlaying
      ensures Valid()
      ensures isPlaying == !old(isPlaying)
      ensures currentTrackIndex == old(currentTrackIndex)
    {
      isPlaying := !isPlaying;
    }

    /** A click on entry `index` of the playlist, one of the rendered rows. */
    method SelectTrack(index: int)
      requires 0 <= index < |playlist|
      modifies this`currentTrackIndex
      ensures Valid()
      ensures currentTrackIndex == index && isPlaying == old(isPlaying)
    {
      currentTrackIndex := index;
    }
  }

  /** Toggling twice restores the playing flag; next then previous restores
      the cursor, on any valid player. */
  method RoundTrips(p: Player)
    requires p.Valid()
    modifies p
    ensures p.Valid()
    ensures p.currentTrackIndex == old(p.currentTrackIndex) && p.isPlaying == old(p.isPlaying)
  {
    p.HandlePlayPause();
    p.HandlePlayPause();
    p.HandleNext();
    p.HandlePrev();
    PrevNextInverse(old(p.currentTrackIndex), |p.playlist|);
  }
}
