/** Scaling modes and the nine alignment anchors of the layout utilities. */
module Layout {

  datatype Scaling = Fit | Fill | Stretch | Unscaled

  datatype Alignment =
    | TopLeft | Top | TopRight
    | Left | Center | Right
    | BottomLeft | Bottom | BottomRight
}
