/** The LoFi music player of the productivity page: cyclic track navigation and
    the coupling between the volume slider and the mute flag. Audio playback is
    not modelled; only the player's state is. */
module MusicPlayer {
  import opened Seqs

  datatype Track = Track(id: nat, title: string, artist: string, duration: nat)

  const LofiTracks: seq<Track> := [
    Track(1, "Chill Study Beats", "LoFi Dreamer", 183),
    Track(2, "Coffee Shop Ambience", "Ambient Vibes", 210),
    Track(3, "Late Night Coding", "Code Beats", 195),
    Track(4, "Rainy Day Reading", "Book Sounds", 240),
    Track(5, "Focus Flow", "Deep Concentration", 225)
  ]

  predicate DistinctIds(tracks: seq<Track>)
  {
    forall i, j :: 0 <= i < j < |tracks| ==> tracks[i].id != tracks[j].id
  }

  /** JavaScript's `%`, which truncates toward zero. */
  function JsRem(a: int, n: int): (r: int)
    requires n > 0
    ensures -n < r < n
    ensures a >= 0 ==> r == a % n
  {
    if a >= 0 then a % n else -((-a) % n)
  }

  /** `findIndex(track => track.id === id)`: the first position with that id, or -1. */
  function IndexOfId(tracks: seq<Track>, id: nat): int
  {
    FindIndex((t: Track) => t.id == id, tracks)
  }

  /** `(currentIndex + 1) % length`. */
  function NextIndex(i: int, n: nat): (r: nat)
    requires n > 0 && -1 <= i < n
    ensures r < n
  {
    JsRem(i + 1, n)
  }

  /** `(currentIndex - 1 + length) % length`. */
  function PrevIndex(i: int, n: nat): (r: nat)
    requires n > 0 && -1 <= i < n
    ensures r < n
  {
    var k := JsRem(i - 1 + n, n);
    if k < 0 then 0 else k  // only `-1 % 1`, which is -0 and indexes element 0
  }

  /** Previous undoes next and next undoes previous, on every valid index. */
  lemma NavigationInverse(i: nat, n: nat)
    requires i < n
    ensures PrevIndex(NextIndex(i, n), n) == i
    ensures NextIndex(PrevIndex(i, n), n) == i
  {
    ModOfSmall(i, n);
    ModOfShifted(i, n);
    if i + 1 < n {
      ModOfSmall(i + 1, n);
      assert NextIndex(i, n) == i + 1;
    } else {
      ModOfShifted(0, n);
      assert NextIndex(i, n) == 0;
    }
    if i > 0 {
      ModOfShifted(i - 1, n);
      assert PrevIndex(i, n) == i - 1;
      ModOfSmall(i, n);
    } else {
      ModOfSmall(n - 1, n);
      assert PrevIndex(i, n) == n - 1;
      ModOfShifted(0, n);
    }
  }

  lemma ModOfSmall(x: int, n: int)
    requires 0 <= x < n
    ensures x % n == x
  {
  }

  lemma ModOfShifted(x: int, n: int)
    requires 0 <= x < n
    ensures (x + n) % n == x
  {
  }

  /** With distinct ids, a track's id locates the track itself. */
  lemma IndexOfMember(tracks: seq<Track>, k: nat)
    requires DistinctIds(tracks) && k < |tracks|
    ensures IndexOfId(tracks, tracks[k].id) == k
  {
    var p := (t: Track) => t.id == tracks[k].id;
    assert p(tracks[k]);
  }

  /** The track `NextTrack` moves to from `t`, and the one `PrevTrack` moves to. */
  function TrackAfter(tracks: seq<Track>, t: Track): Track
    requires |tracks| > 0
  {
    tracks[NextIndex(IndexOfId(tracks, t.id), |tracks|)]
  }

  function TrackBefore(tracks: seq<Track>, t: Track): Track
    requires |tracks| > 0
  {
    tracks[PrevIndex(IndexOfId(tracks, t.id), |tracks|)]
  }

  /** Pressing previous after next, or next after previous, returns to the
      original track. */
  lemma NextThenPrevRestores(tracks: seq<Track>, k: nat)
    requires DistinctIds(tracks) && k < |tracks|
    ensures TrackBefore(tracks, TrackAfter(tracks, tracks[k])) == tracks[k]
    ensures TrackAfter(tracks, TrackBefore(tracks, tracks[k])) == tracks[k]
  {
    var n := |tracks|;
    IndexOfMember(tracks, k);
    IndexOfMember(tracks, NextIndex(k, n));
    IndexOfMember(tracks, PrevIndex(k, n));
    NavigationInverse(k, n);
  }

  lemma LofiTracksDistinct()
    ensures DistinctIds(LofiTracks)
  {
  }

  class Player {
    var currentTrack: Track
    var isPlaying: bool
    var currentTime: nat
    var volume: int
    var isMuted: bool

    predicate Valid()
      reads this
    {
      currentTrack in LofiTracks && 0 <= volume <= 100
    }

    constructor()
      ensures Valid() && currentTrack == LofiTracks[0] && !isPlaying && currentTime == 0
      ensures volume == 80 && !isMuted
    {
      currentTrack := LofiTracks[0];
      isPlaying := false;
      currentTime := 0;
      volume := 80;
      isMuted := false;
    }

    method PlayPauseMusic()
      requires Valid()
      modifies this
      ensures Valid() && isPlaying == !old(isPlaying)
      ensures currentTrack == old(currentTrack) && currentTime == old(currentTime)
      ensures volume == old(volume) && isMuted == old(isMuted)
    {
      isPlaying := !isPlaying;
    }

    method NextTrack()
      requires Valid()
      modifies this
      ensures Valid() && currentTrack == TrackAfter(LofiTracks, old(currentTrack)) && currentTime == 0
      ensures isPlaying == old(isPlaying) && volume == old(volume) && isMuted == old(isMuted)
    {
      var currentIndex := IndexOfId(LofiTracks, currentTrack.id);
      var nextIndex := NextIndex(currentIndex, |LofiTracks|);
      currentTrack := LofiTracks[nextIndex];
      currentTime := 0;
    }

    method PrevTrack()
      requires Valid()
      modifies this
      ensures Valid() && currentTrack == TrackBefore(LofiTracks, old(currentTrack)) && currentTime == 0
      ensures isPlaying == old(isPlaying) && volume == old(volume) && isMuted == old(isMuted)
    {
      var currentIndex := IndexOfId(LofiTracks, currentTrack.id);
      var prevIndex := PrevIndex(currentIndex, |LofiTracks|);
      currentTrack := LofiTracks[prevIndex];
      currentTime := 0;
    }

    /** `handleVolumeChange`: the slider delivers a whole number in 0..100. A zero
        volume mutes, any other volume unmutes. */
    method HandleVolumeChange(newVolume: int)
      requires Valid() && 0 <= newVolume <= 100
      modifies this
      ensures Valid() && volume == newVolume && isMuted == (newVolume == 0)
      ensures currentTrack == old(currentTrack) && isPlaying == old(isPlaying)
      ensures currentTime == old(currentTime)
    {
      volume := newVolume;
      if newVolume == 0 {
        isMuted := true;
      } else if isMuted {
        isMuted := false;
      }
    }

    method ToggleMute()
      requires Valid()
      modifies this
      ensures Valid() && isMuted == !old(isMuted) && volume == old(volume)
      ensures currentTrack == old(currentTrack) && isPlaying == old(isPlaying)
      ensures currentTime == old(currentTime)
    {
      isMuted := !isMuted;
    }
  }

  /** A client of the player: next followed by previous brings back the track
      that was playing, with the playback position back at zero. */
  method NextThenPrev(p: Player)
    requires p.Valid()
    modifies p
    ensures p.Valid() && p.currentTrack == old(p.currentTrack) && p.currentTime == 0
  {
    ghost var k :| 0 <= k < |LofiTracks| && LofiTracks[k] == p.currentTrack;
    LofiTracksDistinct();
    NextThenPrevRestores(LofiTracks, k);
    p.NextTrack();
    p.PrevTrack();
  }
}
