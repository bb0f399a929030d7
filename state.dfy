/** The three customization records of src/state.js: the text, the texture
    and the logo to print. Each is an object whose fields the set and clear
    operations overwrite in place. */
module State {
  import opened Basics
  import opened Three

  /** A point of the 1024 by 256 texture at which text is printed. */
  datatype Anchor = Anchor(x: real, y: real)

  datatype TextRecord = TextRecord(text: string, color: string, option: string, positions: seq<Anchor>, fontSize: real)
  datatype TextureRecord = TextureRecord(patternType: string, colors: seq<Color>)
  datatype LogoRecord = LogoRecord(image: Option<nat>, position: string, width: real, height: real,
                                   opacity: real, xOffset: real, yOffset: real)

  /** The literals the records are initialised with. */
  const InitialText := TextRecord("", "#000000", "front", [], 30.0)
  const InitialTexture := TextureRecord("", [])
  const InitialLogo := LogoRecord(None, "front", 120.0, 120.0, 1.0, 0.0, 0.0)

  /** The font size setText stores: its default of 30 when the argument is omitted. */
  function FontSizeOrDefault(fontSize: Option<real>): (r: real)
    ensures fontSize.None? ==> r == 30.0
    ensures fontSize.Some? ==> r == fontSize.value
  {
    if fontSize.Some? then fontSize.value else 30.0
  }

  /** currentText. */
  class TextState {
    var text: string
    var color: string
    var option: string
    var positions: seq<Anchor>
    var fontSize: real

    function Value(): TextRecord
      reads this
    {
      TextRecord(text, color, option, positions, fontSize)
    }

    constructor ()
      ensures Value() == InitialText
    {
      text, color, option, positions, fontSize := "", "#000000", "front", [], 30.0;
    }

    /** setText(text, color, option, positions, fontSize = 30). */
    method SetText(t: string, c: string, o: string, ps: seq<Anchor>, size: Option<real>)
      modifies this
      ensures Value() == TextRecord(t, c, o, ps, FontSizeOrDefault(size))
    {
      text := t;
      color := c;
      option := o;
      positions := ps;
      fontSize := FontSizeOrDefault(size);
    }

    /** clearText(): back to the initial literal. */
    method ClearText()
      modifies this
      ensures Value() == InitialText
    {
      text := "";
      color := "#000000";
      option := "front";
      positions := [];
      fontSize := 30.0;
    }
  }

  /** currentTexture. */
  class TextureState {
    var patternType: string
    var colors: seq<Color>

    function Value(): TextureRecord
      reads this
    {
      TextureRecord(patternType, colors)
    }

    constructor ()
      ensures Value() == InitialTexture
    {
      patternType, colors := "", [];
    }

    /** setTexture(patternType, colors). */
    method SetTexture(kind: string, palette: seq<Color>)
      modifies this
      ensures Value() == TextureRecord(kind, palette)
    {
      patternType := kind;
      colors := palette;
    }

    /** clearTexture(): the cleared record equals the initial one. */
    method ClearTexture()
      modifies this
      ensures Value() == InitialTexture
    {
      patternType := "";
      colors := [];
    }
  }

  /** currentLogo; the image is a handle to a loaded HTMLImageElement, or null. */
  class LogoState {
    var image: Option<nat>
    var position: string
    var width: real
    var height: real
    var opacity: real
    var xOffset: real
    var yOffset: real

    function Value(): LogoRecord
      reads this
    {
      LogoRecord(image, position, width, height, opacity, xOffset, yOffset)
    }

    constructor ()
      ensures Value() == InitialLogo
    {
      image, position, width, height := None, "front", 120.0, 120.0;
      opacity, xOffset, yOffset := 1.0, 0.0, 0.0;
    }

    /** setLogo({image, position, width, height, opacity, xOffset, yOffset}). */
    method SetLogo(r: LogoRecord)
      modifies this
      ensures Value() == r
    {
      image := r.image;
      position := r.position;
      width := r.width;
      height := r.height;
      opacity := r.opacity;
      xOffset := r.xOffset;
      yOffset := r.yOffset;
    }

    /** clearLogo(): back to the initial literal. */
    method ClearLogo()
      modifies this
      ensures Value() == InitialLogo
    {
      image := None;
      position := "front";
      width := 120.0;
      height := 120.0;
      opacity := 1.0;
      xOffset := 0.0;
      yOffset := 0.0;
    }
  }
}
