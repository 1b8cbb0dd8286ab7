/** The app's small enumerations. */
module Enums {

  /** Which text labels show: brand names or activities. */
  datatype DisplayMode = Brand | Activity {
    function RawValue(): string {
      match this
      case Brand => "Brand"
      case Activity => "Activity"
    }
  }

  /** The tabs of the segmented control. */
  datatype SegmentedControl = Brand | Activity | HeatMap {
    function RawValue(): string {
      match this
      case Brand => "Brand"
      case Activity => "Activity"
      case HeatMap => "Heat Map"
    }
  }
}
