/** The SwiftUI colours the status views choose between. */
module Palette {
  datatype Color = Red | Orange | Green
}
