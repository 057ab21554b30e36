/** Python floats that the core only stores and passes on (sampling temperatures,
    timeouts). They are never computed with, so each is kept as the decimal literal
    that produced it. */
module Floats {

  datatype Float = Float(literal: string)
}
