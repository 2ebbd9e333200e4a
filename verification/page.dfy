/**
 The page's event handlers on top of the library state: sidebar clicks, track-card clicks,
 the transport button and the two `window.prompt` dialogs, whose answers (and the clock
 reading used as a new playlist id) arrive as event parameters. A run is a sequence of
 events; every reachable state keeps the library's invariant.
 */
module Page {
  import opened JsText
  import opened Library
  import opened LibraryFacts

  /**
   The "+" button beside the playlists heading AS WRITTEN: a truthy answer is stored as the
   pending name, but `createPlaylist` runs in the same render and reads the pending name that
   was current before the click. A playlist is therefore created only when that earlier name
   was non-blank, and it carries the earlier name; otherwise the answer just waits.
   */
  function PromptCreateAsWritten(s: State, answer: Option<string>, newId: string): (r: State)
    ensures !(answer.Some? && Truthy(answer.value)) ==> r == s
    ensures answer.Some? && Truthy(answer.value) && AllWhitespace(s.pendingName) ==>
      r.playlists == s.playlists && r.pendingName == answer.value
    ensures answer.Some? && Truthy(answer.value) && !AllWhitespace(s.pendingName) ==>
      && |r.playlists| == |s.playlists| + 1
      && r.playlists[..|s.playlists|] == s.playlists
      && r.playlists[|s.playlists|] == Playlist(newId, s.pendingName, [], NewPlaylistCover)
      && r.pendingName == []
    ensures r.catalog == s.catalog && r.view == s.view && r.current == s.current && r.playing == s.playing
  {
    if answer.Some? && Truthy(answer.value) then
      // queued updates, applied in order: the answer, then (only if created) the new list and ''
      if Truthy(Trim(s.pendingName)) then CreatePlaylist(s, newId)
      else s.(pendingName := answer.value)
    else
      s
  }

  /**
   The "+" button as evidently intended: the answer becomes the pending name and
   `createPlaylist` reads it, so a non-blank answer yields one new playlist of that name.
   */
  function PromptCreate(s: State, answer: Option<string>, newId: string): (r: State)
    ensures !(answer.Some? && Truthy(answer.value)) ==> r == s
    ensures answer.Some? && AllWhitespace(answer.value) ==> r.playlists == s.playlists
    ensures answer.Some? && !AllWhitespace(answer.value) ==>
      && |r.playlists| == |s.playlists| + 1
      && r.playlists[..|s.playlists|] == s.playlists
      && r.playlists[|s.playlists|] == Playlist(newId, answer.value, [], NewPlaylistCover)
      && r.pendingName == []
    ensures r.catalog == s.catalog && r.view == s.view && r.current == s.current && r.playing == s.playing
  {
    if answer.Some? && Truthy(answer.value) then CreatePlaylist(s.(pendingName := answer.value), newId)
    else s
  }

  /**
   The "+" button on a track card: a truthy answer naming an existing playlist adds the track
   to it. Because `AddToPlaylist` ignores unknown ids, the existence check changes nothing:
   any non-empty answer behaves exactly like a direct `AddTrack`.
   */
  function PromptAdd(s: State, t: Track, answer: Option<string>): (r: State)
    ensures !(answer.Some? && Truthy(answer.value)) ==> r == s
    ensures answer.Some? && Truthy(answer.value) ==> r == AddTrack(s, answer.value, t)
  {
    if answer.Some? && Truthy(answer.value) then
      if Find(s.playlists, answer.value).Some? then AddTrack(s, answer.value, t)
      else AddUnknownIdIsNoOp(s.playlists, answer.value, t); s
    else
      s
  }

  /** One user action on the page. Positions refer to the sidebar list or the shown track list. */
  datatype Event =
    | ShowAll
    | ShowPlaylist(slot: nat)
    | PlayRow(row: nat)
    | TogglePlayback
    | PromptNewPlaylist(answer: Option<string>, clock: string)
    | PromptAddRow(row: nat, answer: Option<string>)

  /** Which "+" handler the page runs: the one in the source, or the corrected one. */
  datatype CreateHandler = AsWritten | Corrected

  /** The "+" beside the playlists heading under the chosen handler. */
  function PromptCreateWith(h: CreateHandler, s: State, answer: Option<string>, newId: string): State {
    match h
    case AsWritten => PromptCreateAsWritten(s, answer, newId)
    case Corrected => PromptCreate(s, answer, newId)
  }

  /**
   The effect of one action; a position with no button or card behind it does nothing. No action
   changes the catalog, and every existing playlist keeps its place, id, name and cover.
   */
  function Step(s: State, e: Event, h: CreateHandler): (r: State)
    ensures r.catalog == s.catalog
    ensures |r.playlists| >= |s.playlists|
    ensures forall i | 0 <= i < |s.playlists| ::
      r.playlists[i].id == s.playlists[i].id && r.playlists[i].name == s.playlists[i].name && r.playlists[i].cover == s.playlists[i].cover
  {
    var shown := DisplayTracks(s);
    match e
    case ShowAll => SelectView(s, AllView)
    case ShowPlaylist(k) => if k < |s.playlists| then SelectView(s, s.playlists[k].id) else s
    case PlayRow(k) => if k < |shown| then SelectTrack(s, shown[k]) else s
    case TogglePlayback => TogglePlay(s)
    case PromptNewPlaylist(a, clock) =>
      var r := PromptCreateWith(h, s, a, clock);
      assert forall i | 0 <= i < |s.playlists| :: r.playlists[i] == s.playlists[i] by {
        if |r.playlists| > |s.playlists| {
          assert r.playlists[..|s.playlists|] == s.playlists;
        }
      }
      r
    case PromptAddRow(k, a) => if k < |shown| then PromptAdd(s, shown[k], a) else s
  }

  /** The state after a sequence of actions. */
  function Run(s: State, evs: seq<Event>, h: CreateHandler): State
    decreases |evs|
  {
    if |evs| == 0 then s else Run(Step(s, evs[0], h), evs[1..], h)
  }

  /** Every new playlist of the action gets an id no playlist has yet. */
  predicate FreshFor(s: State, e: Event) {
    e.PromptNewPlaylist? ==> NoMatch(s.playlists, e.clock)
  }

  /** Every action of the run is fresh in the state it meets. */
  predicate FreshRun(s: State, evs: seq<Event>, h: CreateHandler)
    decreases |evs|
  {
    |evs| == 0 || (FreshFor(s, evs[0]) && FreshRun(Step(s, evs[0], h), evs[1..], h))
  }

  /** Every playlist entry is a catalog track. */
  predicate NoOrphans(s: State) {
    forall i, k | 0 <= i < |s.playlists| && 0 <= k < |s.playlists[i].tracks| :: s.playlists[i].tracks[k] in s.catalog
  }

  /**
   The library's invariant: playlist ids are distinct, the view is the sentinel or an existing
   playlist, playlists hold only catalog tracks, and a catalog track is always loaded (so the
   transport bar is always shown).
   */
  predicate Good(s: State) {
    && DistinctIds(s.playlists)
    && (s.view == AllView || !NoMatch(s.playlists, s.view))
    && NoOrphans(s)
    && s.current.Some? && s.current.value in s.catalog
  }

  /** The page starts in a good state. */
  lemma InitialIsGood()
    ensures Good(Initial())
  {
    var s := Initial();
    assert s.playlists[0].id == "liked" && s.playlists[1].id == "chill";
    forall i, k | 0 <= i < |s.playlists| && 0 <= k < |s.playlists[i].tracks|
      ensures s.playlists[i].tracks[k] in s.catalog
    {
      assert s.playlists[i].tracks[k] == s.catalog[i + k];
    }
  }

  /** In a good state every shown row is a catalog track. */
  lemma ShownAreCatalogTracks(s: State)
    requires Good(s)
    ensures forall k | 0 <= k < |DisplayTracks(s)| :: DisplayTracks(s)[k] in s.catalog
  {
    if s.view != AllView {
      var i := FindIndex(s.playlists, s.view).value;
      assert DisplayTracks(s) == s.playlists[i].tracks;
    }
  }

  /** `AddTrack` with a catalog track keeps every playlist free of orphans. */
  lemma AddKeepsNoOrphans(s: State, id: string, t: Track)
    requires NoOrphans(s) && t in s.catalog
    ensures NoOrphans(AddTrack(s, id, t))
  {
    var r := AddTrack(s, id, t);
    forall i, k | 0 <= i < |r.playlists| && 0 <= k < |r.playlists[i].tracks|
      ensures r.playlists[i].tracks[k] in r.catalog
    {
      if k < |s.playlists[i].tracks| {
        if s.playlists[i].id == id {
          assert r.playlists[i].tracks[..|s.playlists[i].tracks|] == s.playlists[i].tracks;
          assert r.playlists[i].tracks[k] == s.playlists[i].tracks[k];
        }
      }
    }
  }

  /** Creating a playlist under a fresh id keeps the invariant. */
  lemma PromptCreateKeepsGood(s: State, a: Option<string>, clock: string)
    requires Good(s) && NoMatch(s.playlists, clock)
    ensures Good(PromptCreate(s, a, clock))
  {
    var r := PromptCreate(s, a, clock);
    if a.Some? && Truthy(a.value) {
      var s' := s.(pendingName := a.value);
      CreateKeepsIdsDistinct(s', clock);
      if !AllWhitespace(a.value) {
        var p := r.playlists[|s.playlists|];
        assert r.playlists == s.playlists + [p];
        if s.view != AllView {
          var i := FindIndex(s.playlists, s.view).value;
          FirstMatchAfterAppend(s.playlists, p, s.view, i);
        }
      }
    }
  }

  /** The "+" handler as written, with a fresh id, keeps the invariant too. */
  lemma PromptCreateAsWrittenKeepsGood(s: State, a: Option<string>, clock: string)
    requires Good(s) && NoMatch(s.playlists, clock)
    ensures Good(PromptCreateAsWritten(s, a, clock))
  {
    var r := PromptCreateAsWritten(s, a, clock);
    if a.Some? && Truthy(a.value) && !AllWhitespace(s.pendingName) {
      CreateKeepsIdsDistinct(s, clock);
      var p := r.playlists[|s.playlists|];
      assert r.playlists == s.playlists + [p];
      if s.view != AllView {
        var i := FindIndex(s.playlists, s.view).value;
        FirstMatchAfterAppend(s.playlists, p, s.view, i);
      }
    }
  }

  /** Adding a shown row through the prompt keeps the invariant. */
  lemma PromptAddKeepsGood(s: State, k: nat, a: Option<string>)
    requires Good(s) && k < |DisplayTracks(s)|
    ensures Good(PromptAdd(s, DisplayTracks(s)[k], a))
  {
    var t := DisplayTracks(s)[k];
    ShownAreCatalogTracks(s);
    if a.Some? && Truthy(a.value) {
      AddKeepsMatches(s.playlists, a.value, t, s.view);
      AddKeepsIdsDistinct(s.playlists, a.value, t);
      AddKeepsNoOrphans(s, a.value, t);
    }
  }

  /** One action with a fresh clock reading keeps the invariant. */
  lemma StepKeepsGood(s: State, e: Event, h: CreateHandler)
    requires Good(s) && FreshFor(s, e)
    ensures Good(Step(s, e, h))
  {
    match e
    case ShowAll =>
    case ShowPlaylist(k) =>
      if k < |s.playlists| {
        assert !NoMatch(s.playlists, s.playlists[k].id);
      }
    case PlayRow(k) => ShownAreCatalogTracks(s);
    case TogglePlayback =>
    case PromptNewPlaylist(a, clock) =>
      if h.AsWritten? {
        PromptCreateAsWrittenKeepsGood(s, a, clock);
      } else {
        PromptCreateKeepsGood(s, a, clock);
      }
    case PromptAddRow(k, a) =>
      if k < |DisplayTracks(s)| {
        PromptAddKeepsGood(s, k, a);
      }
  }

  /**
   Every state reachable by fresh actions keeps the invariant and the catalog, whichever "+"
   handler the page runs.
   */
  lemma {:induction false} RunKeepsGood(s: State, evs: seq<Event>, h: CreateHandler)
    requires Good(s) && FreshRun(s, evs, h)
    ensures Good(Run(s, evs, h)) && Run(s, evs, h).catalog == s.catalog
    decreases |evs|
  {
    if |evs| > 0 {
      StepKeepsGood(s, evs[0], h);
      RunKeepsGood(Step(s, evs[0], h), evs[1..], h);
    }
  }

  /** Running two sequences of actions one after the other is running their concatenation. */
  lemma {:induction false} RunConcat(s: State, a: seq<Event>, b: seq<Event>, h: CreateHandler)
    ensures Run(s, a + b, h) == Run(Run(s, a, h), b, h)
    decreases |a|
  {
    if |a| == 0 {
      assert a + b == b;
    } else {
      assert (a + b)[0] == a[0];
      assert (a + b)[1..] == a[1..] + b;
      RunConcat(Step(s, a[0], h), a[1..], b, h);
    }
  }

  /** Playing a shown row and pressing the transport button leaves that track loaded and paused. */
  lemma PlayThenPause(s: State, k: nat, h: CreateHandler)
    requires k < |DisplayTracks(s)|
    ensures Run(s, [PlayRow(k), TogglePlayback], h) == s.(current := Some(DisplayTracks(s)[k]), playing := false)
  {
    var s1 := Step(s, PlayRow(k), h);
    assert Run(s, [PlayRow(k), TogglePlayback], h) == Run(s1, [TogglePlayback], h);
  }

  /** In the catalog view, the "+" button on row `k` acts as a direct add of the `k`-th catalog track. */
  lemma AddRowFromCatalog(s: State, k: nat, id: string, h: CreateHandler)
    requires s.view == AllView && k < |s.catalog| && Truthy(id)
    ensures Step(s, PromptAddRow(k, Some(id)), h) == AddTrack(s, id, s.catalog[k])
  {
    assert DisplayTracks(s)[k] == s.catalog[k];
  }

  /**
   With the corrected "+" handler, in the catalog view, creating a playlist under a fresh id
   and then adding a catalog row to it by that id leaves one new playlist holding exactly that
   track.
   */
  lemma CreateThenAddFromCatalog(s: State, name: string, id: string, k: nat)
    requires s.view == AllView && !AllWhitespace(name) && Truthy(id) && NoMatch(s.playlists, id)
    requires k < |s.catalog|
    ensures var r := Run(s, [PromptNewPlaylist(Some(name), id), PromptAddRow(k, Some(id))], Corrected);
      && r.playlists == s.playlists + [Playlist(id, name, [s.catalog[k]], NewPlaylistCover)]
      && r.current == s.current && r.playing == s.playing
  {
    var p := Playlist(id, name, [], NewPlaylistCover);
    var e1 := PromptNewPlaylist(Some(name), id);
    var e2 := PromptAddRow(k, Some(id));
    var s1 := Step(s, e1, Corrected);
    assert s1.playlists == s.playlists + [p];
    AddRowFromCatalog(s1, k, id, Corrected);
    var s2 := Step(s1, e2, Corrected);
    AddToAppended(s.playlists, p, s.catalog[k]);
    assert Run(s, [e1, e2], Corrected) == Run(s1, [e2], Corrected) == Run(s2, [], Corrected);
  }

  /**
   With the "+" handler as written and nothing pending, the same two actions create nothing:
   the name only waits, and the add finds no playlist with the new id and is dropped.
   */
  lemma CreateThenAddFromCatalogAsWritten(s: State, name: string, id: string, k: nat)
    requires s.view == AllView && AllWhitespace(s.pendingName) && Truthy(name) && Truthy(id)
    requires NoMatch(s.playlists, id) && k < |s.catalog|
    ensures Run(s, [PromptNewPlaylist(Some(name), id), PromptAddRow(k, Some(id))], AsWritten) == s.(pendingName := name)
  {
    var e1 := PromptNewPlaylist(Some(name), id);
    var e2 := PromptAddRow(k, Some(id));
    var s1 := Step(s, e1, AsWritten);
    assert s1 == s.(pendingName := name);
    AddRowFromCatalog(s1, k, id, AsWritten);
    AddUnknownIdIsNoOp(s1.playlists, id, s.catalog[k]);
    var s2 := Step(s1, e2, AsWritten);
    assert s2 == s1;
    assert Run(s, [e1, e2], AsWritten) == Run(s1, [e2], AsWritten) == Run(s2, [], AsWritten);
  }

  /** The walkthrough's actions: play the first row, pause, create "Road Trip", add row 5 to it. */
  function RoadTripActions(): seq<Event> {
    [PlayRow(0), TogglePlayback, PromptNewPlaylist(Some("Road Trip"), "t1"), PromptAddRow(4, Some("t1"))]
  }

  /**
   The walkthrough on the corrected page: three playlists, the last holding only the fifth
   track, with the first track loaded and paused.
   */
  lemma RoadTripWalkthrough()
    ensures var s := Run(Initial(), RoadTripActions(), Corrected);
      && s.current == Some(MockTracks[0]) && !s.playing
      && |s.playlists| == 3
      && s.playlists[2].name == "Road Trip"
      && s.playlists[2].tracks == [MockTracks[4]]
  {
    var s0 := Initial();
    var a := [PlayRow(0), TogglePlayback];
    var b := [PromptNewPlaylist(Some("Road Trip"), "t1"), PromptAddRow(4, Some("t1"))];
    assert a + b == RoadTripActions();
    RunConcat(s0, a, b, Corrected);
    PlayThenPause(s0, 0, Corrected);
    assert Run(s0, a, Corrected) == s0;
    assert !AllWhitespace("Road Trip") by { assert !IsJsWhitespace("Road Trip"[0]); }
    assert NoMatch(s0.playlists, "t1");
    CreateThenAddFromCatalog(s0, "Road Trip", "t1", 4);
  }

  /**
   The same walkthrough on the page as written: still two playlists, "Road Trip" only waits as
   the pending name, and the fifth track was added nowhere.
   */
  lemma RoadTripWalkthroughAsWritten()
    ensures var s := Run(Initial(), RoadTripActions(), AsWritten);
      && s.current == Some(MockTracks[0]) && !s.playing
      && s.playlists == Initial().playlists
      && s.pendingName == "Road Trip"
  {
    var s0 := Initial();
    var a := [PlayRow(0), TogglePlayback];
    var b := [PromptNewPlaylist(Some("Road Trip"), "t1"), PromptAddRow(4, Some("t1"))];
    assert a + b == RoadTripActions();
    RunConcat(s0, a, b, AsWritten);
    PlayThenPause(s0, 0, AsWritten);
    assert Run(s0, a, AsWritten) == s0;
    assert NoMatch(s0.playlists, "t1");
    CreateThenAddFromCatalogAsWritten(s0, "Road Trip", "t1", 4);
  }

  /**
   With nothing pending, the as-written "+" handler keeps a first non-blank answer waiting and
   creates nothing; a second truthy answer then creates a playlist named after the first answer,
   and the second answer is lost.
   */
  lemma PromptCreateAsWrittenLags(s: State, first: string, second: string, id1: string, id2: string)
    requires AllWhitespace(s.pendingName) && !AllWhitespace(first) && Truthy(second)
    ensures var s1 := PromptCreateAsWritten(s, Some(first), id1);
      && s1.playlists == s.playlists
      && var s2 := PromptCreateAsWritten(s1, Some(second), id2);
      && |s2.playlists| == |s.playlists| + 1
      && s2.playlists[|s.playlists|].name == first
      && s2.pendingName == []
  {
  }

  /**
   From the start state, answering "Road Trip" creates nothing; answering "Gym" next creates a
   playlist named "Road Trip".
   */
  lemma PromptCreateAsWrittenLagsOneAnswer()
    ensures var s1 := PromptCreateAsWritten(Initial(), Some("Road Trip"), "t1");
      && |s1.playlists| == 2
      && s1.pendingName == "Road Trip"
      && var s2 := PromptCreateAsWritten(s1, Some("Gym"), "t2");
      && |s2.playlists| == 3
      && s2.playlists[2].name == "Road Trip"
  {
    assert !AllWhitespace("Road Trip") by { assert !IsJsWhitespace("Road Trip"[0]); }
    PromptCreateAsWrittenLags(Initial(), "Road Trip", "Gym", "t1", "t2");
  }
}
