/** The audio player: the index of the current track in the fixed playlist
    and whether it is playing. The audio element itself is outside the model;
    only its one report back, a refused play(), enters as an event. */
module AudioPlayer {
  import Cyclic

  datatype Track = Track(id: int, title: string, artist: string, src: string)

  /** The site's playlist. */
  const Playlist: seq<Track> := [
    Track(1, "1997 BEAT TAPE", "Kanye", "/track1.mp3"),
    Track(2, "Empire State of Mind", "Jay-Z", "/track2.mp3"),
    Track(3, "C.R.E.A.M.", "Wu-Tang Clan", "/track3.mp3")
  ]

  class Player {
    var isPlaying: bool
    var currentTrackIndex: nat

    predicate Valid()
      reads this
    {
      currentTrackIndex < |Playlist|
    }

    constructor ()
      ensures Valid() && !isPlaying && currentTrackIndex == 0
    {
      isPlaying := false;
      currentTrackIndex := 0;
    }

    /** The track shown and loaded: the playlist's tracks are numbered from
        1 in order. */
    function CurrentTrack(): (t: Track)
      reads this
      requires Valid()
      ensures t in Playlist && t.id == currentTrackIndex + 1
    {
      Playlist[currentTrackIndex]
    }

    method TogglePlay()
      modifies this
      ensures isPlaying == !old(isPlaying) && currentTrackIndex == old(currentTrackIndex)
    {
      isPlaying := !isPlaying;
    }

    method NextTrack()
      requires Valid()
      modifies this
      ensures Valid() && isPlaying
      ensures currentTrackIndex == Cyclic.Next(old(currentTrackIndex), |Playlist|)
    {
      currentTrackIndex := (currentTrackIndex + 1) % |Playlist|;
      isPlaying := true;
    }

    method PrevTrack()
      requires Valid()
      modifies this
      ensures Valid() && isPlaying
      ensures currentTrackIndex == Cyclic.Prev(old(currentTrackIndex), |Playlist|)
    {
      currentTrackIndex := (currentTrackIndex - 1 + |Playlist|) % |Playlist|;
      isPlaying := true;
    }

    /** The track played to its end: the same as pressing next. */
    method HandleEnded()
      requires Valid()
      modifies this
      ensures Valid() && isPlaying
      ensures currentTrackIndex == Cyclic.Next(old(currentTrackIndex), |Playlist|)
    {
      NextTrack();
    }

    /** The browser refused play(): the player shows as paused. */
    method PlaybackRefused()
      modifies this
      ensures !isPlaying && currentTrackIndex == old(currentTrackIndex)
    {
      isPlaying := false;
    }
  }

  /** Three presses of next go round the playlist; previous from the first
      track goes to the last. */
  lemma PlaylistCycle(i: nat)
    requires i < |Playlist|
    ensures Cyclic.NextTimes(i, 3, |Playlist|) == i
    ensures Cyclic.Prev(0, |Playlist|) == 2
  {
    Cyclic.FullCircle(i, |Playlist|);
  }
}
