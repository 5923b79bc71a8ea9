/** Model of the `Size` record: its derived default, the three
    constructors, the emptiness test, and the compatibility step the
    database decoder applies to stored text before JSON parsing. */
module Sizes {
  import opened Orientations
  import opened Scales

  /** Rust's `i32`. The record only stores these values; nothing here does
      arithmetic on them. */
  newtype Int32 = x: int | -0x8000_0000 <= x < 0x8000_0000

  datatype Size = Size(scale: Scale, orientation: Orientation, width: Int32, height: Int32)

  /** The derived `Default`: every field at its own default, so the first
      declared scale and orientation and zero in both dimensions. */
  function Default(): (r: Size)
    ensures Scales.Rank(r.scale) == 0 && Orientations.Rank(r.orientation) == 0
    ensures r.width == 0 && r.height == 0
  {
    Size(Scales.Default(), Orientations.Default(), 0, 0)
  }

  /** `Size::new_thumbnail`: a square tagged `Thumbnail`. */
  function NewThumbnail(sz: Int32, scale: Scale): (r: Size)
    ensures r.orientation == Thumbnail && r.scale == scale
    ensures r.width == sz && r.height == sz
  {
    Size(scale, Thumbnail, sz, sz)
  }

  /** `Size::new_landscape`: the dimensions are copied as given; nothing
      checks that the width exceeds the height. */
  function NewLandscape(w: Int32, h: Int32, scale: Scale): (r: Size)
    ensures r.orientation == Landscape && r.scale == scale
    ensures r.width == w && r.height == h
  {
    Size(scale, Landscape, w, h)
  }

  /** `Size::new_portrait`: the dimensions are copied as given; nothing
      checks that the height exceeds the width. */
  function NewPortrait(w: Int32, h: Int32, scale: Scale): (r: Size)
    ensures r.orientation == Portrait && r.scale == scale
    ensures r.width == w && r.height == h
  {
    Size(scale, Portrait, w, h)
  }

  /** `Size::is_empty`: equality with the default value, which is the
      smallest tier, a thumbnail, and zero in both dimensions. */
  function IsEmpty(s: Size): (b: bool)
    ensures b <==> s.scale == XXSM && s.orientation == Thumbnail && s.width == 0 && s.height == 0
  {
    s == Default()
  }

  /** The default value is empty. */
  lemma DefaultIsEmpty()
    ensures IsEmpty(Default())
  {
  }

  /** A landscape size is never empty, whatever its dimensions and tier. */
  lemma LandscapeNeverEmpty(w: Int32, h: Int32, scale: Scale)
    ensures !IsEmpty(NewLandscape(w, h, scale))
  {
  }

  /** A portrait size is never empty, whatever its dimensions and tier. */
  lemma PortraitNeverEmpty(w: Int32, h: Int32, scale: Scale)
    ensures !IsEmpty(NewPortrait(w, h, scale))
  {
  }

  /** A thumbnail is empty exactly when it has side zero and the smallest
      tier. */
  lemma ThumbnailEmptyIff(sz: Int32, scale: Scale)
    ensures IsEmpty(NewThumbnail(sz, scale)) <==> sz == 0 && scale == XXSM
  {
  }

  /** Rebuilding a size with the constructor its orientation names gives
      it back (for a thumbnail, when it is square). */
  lemma ConstructorsCover(s: Size)
    ensures s.orientation == Landscape ==> NewLandscape(s.width, s.height, s.scale) == s
    ensures s.orientation == Portrait ==> NewPortrait(s.width, s.height, s.scale) == s
    ensures s.orientation == Thumbnail && s.width == s.height ==> NewThumbnail(s.width, s.scale) == s
  {
  }

  /** Examples from the documentation, and a landscape size taller than it
      is wide, which is accepted. */
  lemma Examples()
    ensures NewThumbnail(64, SM) == Size(SM, Thumbnail, 64, 64)
    ensures NewLandscape(1920, 1080, LG) == Size(LG, Landscape, 1920, 1080)
    ensures !IsEmpty(NewThumbnail(100, MD))
    ensures !IsEmpty(NewPortrait(800, 1200, MD))
    ensures NewLandscape(400, 1200, LG).height > NewLandscape(400, 1200, LG).width
  {
  }

  // ---------------------------------------------------------------------
  // Stored-text compatibility step

  /** A leading U+0001 that stored text may carry before the JSON. */
  const Marker: char := '\U{1}'

  predicate StartsWithMarker(t: string) {
    |t| > 0 && t[0] == Marker
  }

  /** `str::strip_prefix('\u{1}')` followed by `unwrap_or` of the original:
      the result is the text with one leading marker removed when there is
      one, and the text itself otherwise. */
  function StripMarker(t: string): (r: string)
    ensures t == [Marker] + r || (r == t && !StartsWithMarker(t))
    ensures |t| - 1 <= |r| <= |t|
  {
    if StartsWithMarker(t) then t[1..] else t
  }

  /** A marker put in front of any text is removed again. */
  lemma StripAfterMarker(t: string)
    ensures StripMarker([Marker] + t) == t
  {
  }

  /** Text without a leading marker passes through unchanged. */
  lemma StripWithoutMarker(t: string)
    requires !StartsWithMarker(t)
    ensures StripMarker(t) == t
  {
  }

  /** At most one marker is stripped. */
  lemma StripAtMostOne(t: string)
    ensures StripMarker([Marker, Marker] + t) == [Marker] + t
  {
  }
}
