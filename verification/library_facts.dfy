/**
 Properties that relate the library handlers to one another: what the page shows after
 each change, which handlers keep playlist ids distinct, and which ones undo each other.
 */
module LibraryFacts {
  import opened JsText
  import opened Library

  /** With distinct ids, selecting a playlist's id shows exactly that playlist's tracks. */
  lemma DisplaySelectedPlaylist(s: State, i: int)
    requires DistinctIds(s.playlists) && 0 <= i < |s.playlists|
    requires s.view == s.playlists[i].id && s.view != AllView
    ensures DisplayTracks(s) == s.playlists[i].tracks
  {
    assert IsFirstMatch(s.playlists, s.view, i);
  }

  /** Appending a playlist keeps every first match of an id that was already present. */
  lemma FirstMatchAfterAppend(ps: seq<Playlist>, p: Playlist, id: string, i: int)
    requires IsFirstMatch(ps, id, i)
    ensures IsFirstMatch(ps + [p], id, i)
  {
  }

  /** An id carried by no playlist still matches nothing after `AddToPlaylist`, and a first match stays first. */
  lemma {:induction false} AddKeepsMatches(ps: seq<Playlist>, id: string, t: Track, v: string)
    ensures Ids(AddToPlaylist(ps, id, t)) == Ids(ps)
    ensures NoMatch(ps, v) ==> NoMatch(AddToPlaylist(ps, id, t), v)
    ensures forall i | IsFirstMatch(ps, v, i) :: IsFirstMatch(AddToPlaylist(ps, id, t), v, i)
  {
    var r := AddToPlaylist(ps, id, t);
    assert forall i | 0 <= i < |ps| :: Ids(r)[i] == Ids(ps)[i];
    forall i | IsFirstMatch(ps, v, i)
      ensures IsFirstMatch(r, v, i)
    {
      assert forall j | 0 <= j < i :: r[j].id == ps[j].id;
    }
  }

  /** `AddToPlaylist` keeps the ids, so distinct ids stay distinct. */
  lemma AddKeepsIdsDistinct(ps: seq<Playlist>, id: string, t: Track)
    requires DistinctIds(ps)
    ensures DistinctIds(AddToPlaylist(ps, id, t))
  {
  }

  /** An id no playlist carries leaves the whole list untouched. */
  lemma AddUnknownIdIsNoOp(ps: seq<Playlist>, id: string, t: Track)
    requires NoMatch(ps, id)
    ensures AddToPlaylist(ps, id, t) == ps
  {
  }

  /**
   Adding the same track twice leaves it twice at the end of the playlist: the list grows by two
   and the track occurs two more times than before.
   */
  lemma AddTwiceKeepsBoth(ps: seq<Playlist>, id: string, t: Track, i: int)
    requires 0 <= i < |ps| && ps[i].id == id
    ensures AddToPlaylist(AddToPlaylist(ps, id, t), id, t)[i].tracks == ps[i].tracks + [t, t]
    ensures multiset(AddToPlaylist(AddToPlaylist(ps, id, t), id, t)[i].tracks)[t] == multiset(ps[i].tracks)[t] + 2
  {
    var once := AddToPlaylist(ps, id, t);
    var twice := AddToPlaylist(once, id, t);
    assert once[i].tracks == ps[i].tracks + [t];
    assert twice[i].tracks == once[i].tracks + [t];
    assert ps[i].tracks + [t] + [t] == ps[i].tracks + [t, t];
  }

  /** While a playlist is shown, adding a track to it shows that track as the new last row. */
  lemma AddThenDisplay(s: State, t: Track)
    requires s.view != AllView && !NoMatch(s.playlists, s.view)
    ensures DisplayTracks(AddTrack(s, s.view, t)) == DisplayTracks(s) + [t]
  {
    var i := FindIndex(s.playlists, s.view).value;
    AddKeepsMatches(s.playlists, s.view, t, s.view);
    var r := AddToPlaylist(s.playlists, s.view, t);
    assert r[i].tracks == s.playlists[i].tracks + [t];
  }

  /** Adding to a playlist other than the one shown changes nothing on screen. */
  lemma AddElsewhereKeepsDisplay(s: State, id: string, t: Track)
    requires id != s.view
    ensures DisplayTracks(AddTrack(s, id, t)) == DisplayTracks(s)
  {
    AddKeepsMatches(s.playlists, id, t, s.view);
    if s.view != AllView && !NoMatch(s.playlists, s.view) {
      var i := FindIndex(s.playlists, s.view).value;
      assert AddToPlaylist(s.playlists, id, t)[i] == s.playlists[i];
    }
  }

  /** Appending a playlist whose id no playlist carries keeps ids pairwise distinct. */
  lemma AppendFreshKeepsIdsDistinct(ps: seq<Playlist>, p: Playlist)
    requires DistinctIds(ps) && NoMatch(ps, p.id)
    ensures DistinctIds(ps + [p])
  {
    var r := ps + [p];
    forall i, j | 0 <= i < j < |r|
      ensures r[i].id != r[j].id
    {
      if j == |ps| {
        assert r[i] == ps[i];
      }
    }
  }

  /** A fresh id keeps playlist ids pairwise distinct through `CreatePlaylist`. */
  lemma CreateKeepsIdsDistinct(s: State, newId: string)
    requires DistinctIds(s.playlists) && NoMatch(s.playlists, newId)
    ensures DistinctIds(CreatePlaylist(s, newId).playlists)
  {
    var r := CreatePlaylist(s, newId).playlists;
    if !AllWhitespace(s.pendingName) {
      var p := r[|s.playlists|];
      assert r == s.playlists + [p];
      AppendFreshKeepsIdsDistinct(s.playlists, p);
    }
  }

  /** Appending a playlist whose id is not the view leaves the shown list as it was. */
  lemma AppendKeepsDisplay(s: State, p: Playlist)
    requires p.id != s.view
    ensures DisplayTracks(s.(playlists := s.playlists + [p])) == DisplayTracks(s)
  {
    var ps := s.playlists + [p];
    if s.view != AllView {
      if NoMatch(s.playlists, s.view) {
        assert NoMatch(ps, s.view);
      } else {
        var i := FindIndex(s.playlists, s.view).value;
        FirstMatchAfterAppend(s.playlists, p, s.view, i);
      }
    }
  }

  /** Creating a playlist with an id other than the shown one leaves the shown tracks as they were. */
  lemma CreateKeepsDisplay(s: State, newId: string)
    requires newId != s.view
    ensures DisplayTracks(CreatePlaylist(s, newId)) == DisplayTracks(s)
  {
    if !AllWhitespace(s.pendingName) {
      var p := Playlist(newId, s.pendingName, [], NewPlaylistCover);
      var r := CreatePlaylist(s, newId);
      assert r.playlists == s.playlists + [p];
      AppendKeepsDisplay(s, p);
      assert DisplayTracks(r) == DisplayTracks(s.(playlists := s.playlists + [p]));
    }
  }

  /** Adding to the id of a just-appended playlist whose id was fresh touches only that playlist. */
  lemma AddToAppended(ps: seq<Playlist>, p: Playlist, t: Track)
    requires NoMatch(ps, p.id)
    ensures AddToPlaylist(ps + [p], p.id, t) == ps + [p.(tracks := p.tracks + [t])]
  {
    var r := AddToPlaylist(ps + [p], p.id, t);
    var q := p.(tracks := p.tracks + [t]);
    forall i | 0 <= i < |ps|
      ensures r[i] == ps[i]
    {
      assert (ps + [p])[i] == ps[i];
    }
    assert r[|ps|].tracks == p.tracks + [t];
    assert r == ps + [q];
  }

  /** A creation clears the pending name, so creating again right away does nothing. */
  lemma CreateTwiceCreatesOnce(s: State, id1: string, id2: string)
    ensures CreatePlaylist(CreatePlaylist(s, id1), id2) == CreatePlaylist(s, id1)
  {
  }

  /** Toggling twice restores the playing flag and the whole state. */
  lemma ToggleTwiceRestores(s: State)
    ensures TogglePlay(TogglePlay(s)) == s
  {
  }

  /** Selecting a track starts playback whatever the flag was; a toggle afterwards pauses it. */
  lemma SelectThenTogglePauses(s: State, t: Track)
    ensures !TogglePlay(SelectTrack(s, t)).playing
    ensures TogglePlay(SelectTrack(s, t)).current == Some(t)
  {
  }
}
