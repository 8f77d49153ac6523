/** The wire-format constants of the client: the line separator, the frame
    separator, the four recognised field names and the default retry delay; and
    C#'s 32-bit `int`, the type of the retry delay. */
module Constants {

  const MinInt32: int := -0x8000_0000
  const MaxInt32: int := 0x7FFF_FFFF

  /** C#'s `int`. */
  newtype int32 = x: int | MinInt32 <= x <= MaxInt32

  /** The only character that splits a frame into lines; `'\r'` is not one. */
  const LineSeparator: char := '\n'

  /** The blank line that ends a frame. */
  const FrameSeparator: string := "\n\n"

  /** The number of characters cut off together with a frame's separator. */
  const FrameSeparatorLength: nat := |FrameSeparator|

  /** The field names, as written (lower case); matching ignores case. */
  const DataKey: string := "data"
  const IdKey: string := "id"
  const EventKey: string := "event"
  const RetryKey: string := "retry"

  /** The retry delay, in milliseconds, of a frame without a valid `retry` field. */
  const DefaultRetry: int := 3000

  /** A frame separator is two line separators, so a cut removes two characters
      past the separator's start. */
  lemma SeparatorIsTwoLineBreaks()
    ensures FrameSeparator == [LineSeparator, LineSeparator]
    ensures FrameSeparatorLength == 2
  {
  }
}
