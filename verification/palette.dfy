/**
 * The colour families the display components choose between. Only the
 * family is modelled, not the CSS class strings that carry it.
 */
module Palette {
  datatype Color = Green | Blue | Orange | Gray
}
