/** A viewport size in pixels, as both the launch options and the resize
    tool pass it: `{width, height}`. */
module Viewports {
  datatype Viewport = Viewport(width: int, height: int)
}
