/** Small shared vocabulary of the collateral designer model: optional values,
    JavaScript truthiness of nullable strings, and the QR symbol description
    handed to the QR renderer. */
module Common {

  /** The usual Some/None datatype; stands for TypeScript's `T | null` and for
      "key absent" in a `Partial<...>` update record. */
  datatype Option<+T> = None | Some(value: T) {

    /** The carried value, or `default` when absent. */
    function GetOr(default: T): T {
      match this
      case Some(v) => v
      case None => default
    }
  }

  /** JavaScript truthiness of a `string | null`: both null and "" are falsy. */
  predicate Truthy(s: Option<string>) {
    s.Some? && s.value != ""
  }

  /** The outline of the collateral being designed. */
  datatype Shape = Rectangle | Square | Circle

  /** A position on the canvas, in CSS pixels from its top-left corner. */
  datatype Point = Point(x: int, y: int)

  /** The text-style flags shared by every text element of the collateral. */
  datatype TextStyle = TextStyle(bold: bool, underline: bool, highlight: bool, highlightColor: string)

  /** QR error-correction levels offered by the QR renderer. */
  datatype EcLevel = L | M | Q | H

  /** The properties passed to the QR renderer component. */
  datatype QrSymbol = QrSymbol(
    value: string,
    size: real,
    fgColor: string,
    bgColor: string,
    level: EcLevel,
    includeMargin: bool)
}
