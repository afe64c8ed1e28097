/** The artwork tile: an aspect-ratio class and optional pixel dimensions.
    Its image fallbacks are the track card's code and are the functions
    `TrackCard.ArtworkUrl` and `TrackCard.AvatarUrl`. */
module TrackArtwork {
  import opened Common
  import opened JsString
  import opened JsNumber

  /** The tile's `aspectRatio` property. */
  datatype AspectRatio = Portrait | Square

  /** The aspect class; an absent ratio is portrait. */
  function AspectClass(ratio: Option<AspectRatio>): (c: string)
    ensures ratio == Some(Square) ==> c == "aspect-square"
    ensures ratio != Some(Square) ==> c == "aspect-[3/4]"
  {
    match (if ratio.Some? then ratio.value else Portrait)
    case Portrait => "aspect-[3/4]"
    case Square => "aspect-square"
  }

  /** A `width` or `height` style: `npx` for a truthy number, `auto` for an
      absent one or 0. */
  function Dimension(n: Option<int>): string {
    if n.Some? && n.value != 0 then IntToString(n.value) + "px" else "auto"
  }

  /** A dimension is `auto` exactly when the number is absent or 0;
      otherwise it ends in `px` and `parseInt` reads the number back. */
  lemma DimensionSpec(n: Option<int>)
    ensures Dimension(n) == "auto" <==> n.None? || n.value == 0
    ensures n.Some? && n.value != 0 ==>
              var d := Dimension(n);
              d[|d| - 2..] == "px" && ParseInt(d) == Int(n.value)
  {
    if n.Some? && n.value != 0 {
      var d := Dimension(n);
      ParseIntOfDecimal(n.value, "px");
      var digits := IntToString(n.value);
      assert d[|d| - 1] == 'x';
      assert d[|d| - 2..] == "px";
      assert d[|d| - 1] != "auto"[3];
    }
  }

  /** The tile's image style: its width, height and aspect class. */
  datatype Style = Style(width: string, height: string, aspect: string)

  /** The tile's style: each dimension is `auto` or pixels that read back
      as the number given, and the aspect class is square only when asked
      for. */
  function ImageStyle(ratio: Option<AspectRatio>, width: Option<int>, height: Option<int>): (st: Style)
    ensures st.aspect == "aspect-square" <==> ratio == Some(Square)
    ensures st.width == "auto" <==> width.None? || width.value == 0
    ensures width.Some? && width.value != 0 ==> ParseInt(st.width) == Int(width.value)
    ensures st.height == "auto" <==> height.None? || height.value == 0
    ensures height.Some? && height.value != 0 ==> ParseInt(st.height) == Int(height.value)
  {
    DimensionSpec(width);
    DimensionSpec(height);
    Style(Dimension(width), Dimension(height), AspectClass(ratio))
  }
}
