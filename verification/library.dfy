/**
 The in-memory library state behind the music-player page: a fixed catalog of tracks,
 an ordered list of playlists, the selected view, the pending playlist name, the current
 track and the playing flag, with one pure function per state handler of the page.
 */
module Library {
  import opened JsText

  datatype Option<+T> = None | Some(value: T)

  /** A catalog entry. Duration and cover are display strings that nothing parses. */
  datatype Track = Track(id: string, title: string, artist: string, album: string, duration: string, cover: string)

  /** A named, ordered list of tracks; duplicates are allowed. */
  datatype Playlist = Playlist(id: string, name: string, tracks: seq<Track>, cover: string)

  /**
   The page's state. `view` is either the sentinel `AllView` or a playlist id;
   `pendingName` is the name the next `CreatePlaylist` reads.
   */
  datatype State = State(
    catalog: seq<Track>,
    playlists: seq<Playlist>,
    view: string,
    pendingName: string,
    current: Option<Track>,
    playing: bool)

  /** The view id that selects the whole catalog. */
  const AllView: string := "all"

  /** Opaque cover-image paths of the sample data. */
  const CoverA: string := "/img/8cf6e1b6-8189-4d32-9fa9-f7363396ed11.jpg"
  const CoverB: string := "/img/bf12ba65-331f-4812-8e31-89f1565e90e1.jpg"
  const CoverC: string := "/img/f9d87c63-afce-4535-83c5-16fd9bd87827.jpg"

  /** The cover every newly created playlist gets. */
  const NewPlaylistCover: string := CoverC

  /** The fixed sample catalog. */
  const MockTracks: seq<Track> := [
    Track("1", "Midnight Dreams", "Cosmic Wave", "Neon Nights", "3:42", CoverA),
    Track("2", "Electric Pulse", "Synth Master", "Digital Flow", "4:15", CoverB),
    Track("3", "Urban Nights", "Beat Collective", "City Vibes", "3:28", CoverC),
    Track("4", "Neon Waves", "Future Sound", "Synthwave Dreams", "5:03", CoverA),
    Track("5", "Digital Rain", "Cyber Flow", "Matrix", "3:56", CoverB)
  ]

  /** The state the page starts in: two seeded playlists, the whole catalog shown, the first track loaded and paused. */
  function Initial(): (s: State)
    ensures s.catalog == MockTracks && |s.catalog| == 5 && |s.playlists| == 2
    ensures s.playlists[0].id == "liked" && s.playlists[1].id == "chill"
    ensures s.view == AllView && s.pendingName == []
    ensures s.current == Some(s.catalog[0]) && !s.playing
    ensures s.playlists[0].tracks == s.catalog[0..3] && s.playlists[1].tracks == s.catalog[1..4]
  {
    State(
      MockTracks,
      [ Playlist("liked", "Любимые треки", MockTracks[0..3], CoverA),
        Playlist("chill", "Chill Vibes", MockTracks[1..4], CoverB) ],
      AllView,
      "",
      Some(MockTracks[0]),
      false)
  }

  /** `i` is the position of the first playlist whose id is `id`. */
  predicate IsFirstMatch(ps: seq<Playlist>, id: string, i: int) {
    && 0 <= i < |ps|
    && ps[i].id == id
    && forall j | 0 <= j < i :: ps[j].id != id
  }

  /** No playlist has id `id`. */
  predicate NoMatch(ps: seq<Playlist>, id: string) {
    forall j | 0 <= j < |ps| :: ps[j].id != id
  }

  /** The playlists' ids, in order. */
  function Ids(ps: seq<Playlist>): seq<string> {
    seq(|ps|, i requires 0 <= i < |ps| => ps[i].id)
  }

  /** No two playlists share an id. */
  predicate DistinctIds(ps: seq<Playlist>) {
    forall i, j | 0 <= i < j < |ps| :: ps[i].id != ps[j].id
  }

  /** The position `Array.prototype.find` stops at when looking for id `id`, if any. */
  function FindIndex(ps: seq<Playlist>, id: string): (r: Option<nat>)
    ensures r.Some? <==> !NoMatch(ps, id)
    ensures r.Some? ==> IsFirstMatch(ps, id, r.value)
  {
    if |ps| == 0 then None
    else if ps[0].id == id then Some(0)
    else match FindIndex(ps[1..], id)
      case None => None
      case Some(k) => Some(k + 1)
  }

  /** `playlists.find(p => p.id === id)`: the first playlist with that id, or none. */
  function Find(ps: seq<Playlist>, id: string): (r: Option<Playlist>)
    ensures r.None? <==> NoMatch(ps, id)
    ensures forall i | IsFirstMatch(ps, id, i) :: r == Some(ps[i])
  {
    match FindIndex(ps, id)
    case None => None
    case Some(k) => Some(ps[k])
  }

  /**
   The track list the page shows: the whole catalog under the `AllView` sentinel, otherwise
   the tracks of the first playlist with the selected id, or nothing when no playlist has it.
   */
  function DisplayTracks(s: State): (r: seq<Track>)
    ensures s.view == AllView ==> r == s.catalog
    ensures s.view != AllView && NoMatch(s.playlists, s.view) ==> r == []
    ensures s.view != AllView ==> forall i | IsFirstMatch(s.playlists, s.view, i) :: r == s.playlists[i].tracks
  {
    if s.view == AllView then s.catalog
    else match Find(s.playlists, s.view)
      case Some(p) => p.tracks
      case None => []
  }

  /** Clicking "all music" or a playlist in the sidebar: only the view changes. */
  function SelectView(s: State, id: string): (r: State)
    ensures r.view == id
    ensures r.catalog == s.catalog && r.playlists == s.playlists && r.pendingName == s.pendingName
    ensures r.current == s.current && r.playing == s.playing
  {
    s.(view := id)
  }

  /**
   `createPlaylist` with the clock reading `newId`: when the pending name trims to empty nothing
   changes; otherwise one empty playlist carrying the untrimmed name is appended after the
   unchanged existing ones and the pending name is cleared.
   */
  function CreatePlaylist(s: State, newId: string): (r: State)
    ensures AllWhitespace(s.pendingName) ==> r == s
    ensures !AllWhitespace(s.pendingName) ==>
      && |r.playlists| == |s.playlists| + 1
      && r.playlists[..|s.playlists|] == s.playlists
      && r.playlists[|s.playlists|] == Playlist(newId, s.pendingName, [], NewPlaylistCover)
      && r.pendingName == []
    ensures r.catalog == s.catalog && r.view == s.view && r.current == s.current && r.playing == s.playing
  {
    if Truthy(Trim(s.pendingName)) then
      var p := Playlist(newId, s.pendingName, [], NewPlaylistCover);
      s.(playlists := s.playlists + [p], pendingName := "")
    else
      s
  }

  /**
   `addToPlaylist`: every playlist whose id is `id` gets `t` as a new last track (no
   deduplication); every other playlist, and every id, name and cover, stays as it was.
   */
  function AddToPlaylist(ps: seq<Playlist>, id: string, t: Track): (r: seq<Playlist>)
    ensures |r| == |ps|
    ensures forall i | 0 <= i < |ps| :: r[i].id == ps[i].id && r[i].name == ps[i].name && r[i].cover == ps[i].cover
    ensures forall i | 0 <= i < |ps| && ps[i].id == id ::
      && |r[i].tracks| == |ps[i].tracks| + 1
      && r[i].tracks[..|ps[i].tracks|] == ps[i].tracks
      && r[i].tracks[|ps[i].tracks|] == t
    ensures forall i | 0 <= i < |ps| && ps[i].id != id :: r[i] == ps[i]
  {
    seq(|ps|, i requires 0 <= i < |ps| =>
      if ps[i].id == id then ps[i].(tracks := ps[i].tracks + [t]) else ps[i])
  }

  /** The state-level `addToPlaylist`: only the playlists change. */
  function AddTrack(s: State, id: string, t: Track): (r: State)
    ensures r.playlists == AddToPlaylist(s.playlists, id, t)
    ensures r.catalog == s.catalog && r.view == s.view && r.pendingName == s.pendingName
    ensures r.current == s.current && r.playing == s.playing
  {
    s.(playlists := AddToPlaylist(s.playlists, id, t))
  }

  /** Clicking a track card: that track becomes current and playback is forced on. */
  function SelectTrack(s: State, t: Track): (r: State)
    ensures r.current == Some(t) && r.playing
    ensures r.catalog == s.catalog && r.playlists == s.playlists && r.view == s.view && r.pendingName == s.pendingName
  {
    s.(current := Some(t), playing := true)
  }

  /** The transport button: flips the playing flag and nothing else. */
  function TogglePlay(s: State): (r: State)
    ensures r.playing != s.playing
    ensures r.catalog == s.catalog && r.playlists == s.playlists && r.view == s.view
    ensures r.pendingName == s.pendingName && r.current == s.current
  {
    s.(playing := !s.playing)
  }
}
