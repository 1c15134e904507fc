/**
 * The explore page's interactions (src/app/explore/page.tsx): liking
 * songs, a single playing song, and the song opened in the detail view.
 * `likedSongs` holds a JavaScript `Set`, an object changed in place by
 * `add` and `delete`; `toggleLike` copies it, changes the copy and stores
 * the copy, so the previous set object is never changed.
 */
module Explore {
  import opened Options

  datatype Song = Song(id: int, title: string, artist: string, genre: string, duration: string, likes: nat, plays: nat)

  /** The page's song list; only `id` and `likes` take part in the interactions. */
  const Songs: seq<Song> := [
    Song(1, "Neon Dreams", "Alex Johnson", "Electronic", "3:24", 1243, 12453),
    Song(2, "Ocean Waves", "Sarah Chen", "Ambient", "4:12", 892, 8921),
    Song(3, "Urban Pulse", "Marcus Williams", "Hip Hop", "3:45", 2156, 21560),
    Song(4, "Starlight Serenade", "Emma Davis", "Pop", "3:18", 1678, 16780),
    Song(5, "Midnight Jazz", "James Brown", "Jazz", "5:32", 945, 9450),
    Song(6, "Electric Storm", "Luna Rodriguez", "Rock", "4:05", 1821, 18210)
  ]

  /** A JavaScript `Set<number>`. */
  class IdSet {
    var elems: set<int>

    constructor Empty()
      ensures elems == {}
    {
      elems := {};
    }

    /** `new Set(other)` */
    constructor Copy(other: IdSet)
      ensures elems == other.elems
    {
      elems := other.elems;
    }

    predicate Has(id: int)
      reads this
    {
      id in elems
    }

    method Add(id: int)
      modifies this
      ensures elems == old(elems) + {id}
    {
      elems := elems + {id};
    }

    method Delete(id: int)
      modifies this
      ensures elems == old(elems) - {id}
    {
      elems := elems - {id};
    }
  }

  /** The liked ids after toggling `id`: its membership flips and no other id's does. */
  function Toggled(liked: set<int>, id: int): (r: set<int>)
    ensures id in r <==> id !in liked
    ensures forall other :: other != id ==> (other in r <==> other in liked)
  {
    if id in liked then liked - {id} else liked + {id}
  }

  /** `song.likes + (likedSongs.has(song.id) ? 1 : 0)` */
  function DisplayedLikes(song: Song, liked: set<int>): (shown: nat)
    ensures song.likes <= shown <= song.likes + 1
  {
    song.likes + if song.id in liked then 1 else 0
  }

  /** Toggling the same id twice restores the liked set. */
  lemma ToggleTwiceRestores(liked: set<int>, id: int)
    ensures Toggled(Toggled(liked, id), id) == liked
  {
  }

  /** The displayed count is the stored count, or one more while the song is liked. */
  lemma DisplayedLikesBounds(song: Song, liked: set<int>)
    ensures DisplayedLikes(song, liked) == song.likes + 1 <==> song.id in liked
  {
  }

  /** A like toggle moves the toggled song's count by exactly one, up or down, and leaves every other song's count alone. */
  lemma DisplayedLikesAfterToggle(song: Song, liked: set<int>, id: int)
    ensures song.id == id && id !in liked ==> DisplayedLikes(song, Toggled(liked, id)) == DisplayedLikes(song, liked) + 1
    ensures song.id == id && id in liked ==> DisplayedLikes(song, Toggled(liked, id)) + 1 == DisplayedLikes(song, liked)
    ensures song.id != id ==> DisplayedLikes(song, Toggled(liked, id)) == DisplayedLikes(song, liked)
  {
  }

  /** Liking a song from the list changes the count on its own card and on no other card, because the list's ids are distinct. */
  lemma ToggleChangesOneCard(liked: set<int>, i: nat, j: nat)
    requires i < |Songs| && j < |Songs|
    ensures DisplayedLikes(Songs[j], Toggled(liked, Songs[i].id)) != DisplayedLikes(Songs[j], liked) <==> i == j
  {
    DisplayedLikesAfterToggle(Songs[j], liked, Songs[i].id);
  }

  class ExplorePage {
    var likedSongs: IdSet
    /** `playingSongId`: one id or none, so at most one song plays. */
    var playingSongId: Option<int>
    var selectedSong: Option<Song>

    constructor ()
      ensures fresh(likedSongs) && likedSongs.elems == {}
      ensures playingSongId == None && selectedSong == None
    {
      likedSongs := new IdSet.Empty();
      playingSongId, selectedSong := None, None;
    }

    /** `toggleLike(id)`: copy the set, flip `id` in the copy, store the copy. */
    method ToggleLike(id: int)
      modifies this`likedSongs
      ensures fresh(likedSongs)
      ensures likedSongs.elems == Toggled(old(likedSongs.elems), id)
      ensures old(likedSongs).elems == old(likedSongs.elems)
    {
      var next := new IdSet.Copy(likedSongs);
      if next.Has(id) {
        next.Delete(id);
      } else {
        next.Add(id);
      }
      likedSongs := next;
    }

    /** `togglePlay(id)`: stop it if it is the one playing, otherwise play it instead of any other. */
    method TogglePlay(id: int)
      modifies this`playingSongId
      ensures playingSongId == if old(playingSongId) == Some(id) then None else Some(id)
    {
      playingSongId := if playingSongId == Some(id) then None else Some(id);
    }

    /** Clicking a card opens it in the detail view. */
    method OpenSong(song: Song)
      modifies this`selectedSong
      ensures selectedSong == Some(song)
    {
      selectedSong := Some(song);
    }

    /** The backdrop and the close button both close the detail view. */
    method CloseSong()
      modifies this`selectedSong
      ensures selectedSong == None
    {
      selectedSong := None;
    }
  }
}
