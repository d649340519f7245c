/**
 * Fonts and text labels as records. Glyph metrics belong to the font
 * collaborator: a font contributes only its BaseHeight, and a label's packed
 * size is given to it.
 */
module Labels {
  import opened Wrappers
  import opened Layout

  datatype Font = Font(name: string, baseHeight: real)

  /** The point and anchor a label was last placed at with SetAlignedPosition. */
  datatype Anchor = Anchor(x: real, y: real, alignment: Alignment)

  datatype Label = Label(
    font: Font,
    text: string,
    visible: bool,
    x: real,
    y: real,
    width: real,
    height: real,
    anchor: Option<Anchor>)

  /** `new Label(font, text)`: visible, at the origin, with the measured size given. */
  function NewLabel(font: Font, text: string, width: real, height: real): (l: Label)
  {
    Label(font, text, true, 0.0, 0.0, width, height, None)
  }
}
