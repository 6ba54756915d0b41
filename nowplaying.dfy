/**
 * The standalone now-playing program (cmd/nowplaying/main.go): the centred
 * square crop of the album art, the four key tiles it is cut into, the
 * change detection that decides what to redraw, and the direction choice of
 * dial 2. Decoding, scaling and the media-control commands themselves are
 * not modelled.
 */
module NowPlayingApp {
  import opened Wrappers
  import opened Geometry
  import opened Resources
  import opened Events

  function Min(a: int, b: int): int { if a < b then a else b }

  /** `scaleImageSquare`'s crop: the largest centred square of a w x h image. */
  function CropRect(w: nat, h: nat): (r: Rect)
    ensures r.Dx() == Min(w, h) && r.Dy() == Min(w, h)
    ensures 0 <= r.min.x && r.max.x <= w && 0 <= r.min.y && r.max.y <= h
    ensures w > h ==> r.min.y == 0 && r.min.x == (w - h) / 2
    ensures w <= h ==> r.min.x == 0 && r.min.y == (h - w) / 2
    ensures var left := r.min.x; var right := w - r.max.x; left <= right <= left + 1
    ensures var top := r.min.y; var bottom := h - r.max.y; top <= bottom <= top + 1
  {
    if w > h then
      var offset := (w - h) / 2;
      R(offset, 0, offset + h, h)
    else
      var offset := (h - w) / 2;
      R(0, offset, w, offset + w)
  }

  /** The art keys, in tile order: top row, then bottom row of the right-hand 2 x 2 block. */
  const ArtKeys: seq<KeyId> := [Key3, Key4, Key7, Key8]
  const Positions: seq<Point> := [Point(0, 0), Point(1, 0), Point(0, 1), Point(1, 1)]

  /** The part of the scaled art that the tile at grid position `pos` shows. */
  function SourceRect(pos: Point, keyW: int, keyH: int): Rect {
    R(pos.x * keyW, pos.y * keyH, (pos.x + 1) * keyW, (pos.y + 1) * keyH)
  }

  function ArtTiles(keyW: int, keyH: int): seq<(KeyId, Rect)> {
    seq(4, i requires 0 <= i < 4 => (ArtKeys[i], SourceRect(Positions[i], keyW, keyH)))
  }

  /** The tiles show the scaled art's four quadrants: each is key-sized, and every pixel is in exactly one. */
  lemma ArtTilesPartition(keyW: nat, keyH: nat, p: Point)
    requires keyW > 0 && keyH > 0
    ensures forall i :: 0 <= i < 4 ==> ArtTiles(keyW, keyH)[i].1.Dx() == keyW && ArtTiles(keyW, keyH)[i].1.Dy() == keyH
    ensures R(0, 0, 2 * keyW, 2 * keyH).Contains(p) <==> exists i :: 0 <= i < 4 && ArtTiles(keyW, keyH)[i].1.Contains(p)
    ensures forall i, j :: 0 <= i < j < 4 ==> !ArtTiles(keyW, keyH)[i].1.Overlaps(ArtTiles(keyW, keyH)[j].1)
  {
    var t := ArtTiles(keyW, keyH);
    assert t[0].1 == R(0, 0, keyW, keyH);
    assert t[1].1 == R(keyW, 0, 2 * keyW, keyH);
    assert t[2].1 == R(0, keyH, keyW, 2 * keyH);
    assert t[3].1 == R(keyW, keyH, 2 * keyW, 2 * keyH);
    if R(0, 0, 2 * keyW, 2 * keyH).Contains(p) {
      var i := (if p.x < keyW then 0 else 1) + (if p.y < keyH then 0 else 2);
      assert t[i].1.Contains(p);
    }
  }

  /**
   * `updateArtwork` after the art has decoded: one `SetKeyImage` per art
   * key, in order, with its tile of the 2*keyW square. Nothing is set when
   * decoding or the key-size query fails.
   */
  method UpdateArtwork(decoded: bool, keyRect: Option<Rect>) returns (sets: seq<(KeyId, Rect)>)
    ensures !decoded || keyRect.None? ==> sets == []
    ensures decoded && keyRect.Some? ==> sets == ArtTiles(keyRect.value.Dx(), keyRect.value.Dy())
  {
    sets := [];
    if !decoded || keyRect.None? {
      return;
    }
    var keyW := keyRect.value.Dx();
    var keyH := keyRect.value.Dy();
    for i := 0 to |ArtKeys|
      invariant sets == ArtTiles(keyW, keyH)[..i]
    {
      var pos := Positions[i];
      var srcRect := R(pos.x * keyW, pos.y * keyH, (pos.x + 1) * keyW, (pos.y + 1) * keyH);
      sets := sets + [(ArtKeys[i], srcRect)];
    }
  }

  /** What `media-control get` reports (times are left out). */
  datatype NowPlaying = NowPlaying(title: string, artist: string, album: string, playing: bool, artworkData: string)

  /** The program's display state and what it has drawn. */
  class Display {
    var lastArtwork: string
    var lastPlaying: bool
    /** Artwork handed to `updateArtwork`, oldest first; it is remembered even when it fails to decode and nothing is drawn. */
    var artworkSent: seq<string>
    /** Play/pause icons drawn, oldest first. */
    var iconDrawn: seq<bool>
    /** Touch-strip refreshes, oldest first. */
    var stripDrawn: seq<NowPlaying>

    constructor ()
      ensures lastArtwork == "" && !lastPlaying && artworkSent == [] && iconDrawn == [] && stripDrawn == []
    {
      lastArtwork, lastPlaying := "", false;
      artworkSent, iconDrawn, stripDrawn := [], [], [];
    }

    /**
     * `updateDisplay`: nothing happens when the fetch fails. Otherwise new,
     * non-empty artwork is drawn and remembered, the icon is redrawn when the
     * playing state changed, and the strip is always refreshed.
     */
    method UpdateDisplay(fetched: Option<NowPlaying>)
      modifies this
      ensures fetched.None? ==>
        lastArtwork == old(lastArtwork) && lastPlaying == old(lastPlaying)
        && artworkSent == old(artworkSent) && iconDrawn == old(iconDrawn) && stripDrawn == old(stripDrawn)
      ensures fetched.Some? ==>
        var np := fetched.value;
        var newArt := np.artworkData != "" && np.artworkData != old(lastArtwork);
        && lastArtwork == (if newArt then np.artworkData else old(lastArtwork))
        && artworkSent == old(artworkSent) + (if newArt then [np.artworkData] else [])
        && lastPlaying == np.playing
        && iconDrawn == old(iconDrawn) + (if np.playing != old(lastPlaying) then [np.playing] else [])
        && stripDrawn == old(stripDrawn) + [np]
    {
      if fetched.None? {
        return;
      }
      var np := fetched.value;
      if np.artworkData != "" && np.artworkData != lastArtwork {
        lastArtwork := np.artworkData;
        artworkSent := artworkSent + [np.artworkData];
      }
      if np.playing != lastPlaying {
        lastPlaying := np.playing;
        iconDrawn := iconDrawn + [np.playing];
      }
      stripDrawn := stripDrawn + [np];
    }
  }

  /** Polling twice with the same answer hands over the artwork and draws the icon at most once. */
  method RepeatedPollDrawsOnce(np: NowPlaying) returns (artSends: nat, iconDraws: nat, stripDraws: nat)
    ensures artSends <= 1 && iconDraws <= 1 && stripDraws == 2
    ensures artSends == 1 <==> np.artworkData != ""
    ensures iconDraws == 1 <==> np.playing
  {
    var d := new Display();
    d.UpdateDisplay(Some(np));
    d.UpdateDisplay(Some(np));
    artSends, iconDraws, stripDraws := |d.artworkSent|, |d.iconDrawn|, |d.stripDrawn|;
  }

  datatype TrackCommand = PreviousTrack | NextTrack

  /** Dial 2: turning left goes to the previous track; no turn or a turn right, to the next. */
  function Dial2Command(delta: Int8): (c: TrackCommand)
    ensures c == PreviousTrack <==> delta < 0
    ensures c == NextTrack <==> delta >= 0
  {
    if delta < 0 then PreviousTrack else NextTrack
  }
}
