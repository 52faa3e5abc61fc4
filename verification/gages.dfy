/** The records the dashboard loads and filters: state boundary features
    and streamgage rows. Coordinates and polygons are kept abstract: a
    location is an opaque grid point and a state's polygon is the set of
    points it covers, so "point in polygon" becomes set membership. */
module Gages {

  /** An abstract map location (the row's longitude/latitude). */
  datatype Point = Point(x: int, y: int)

  /** One row of the state-boundary file: its `shapeName` and geometry. */
  datatype StateFeature = StateFeature(shapeName: string, region: set<Point>)

  /** One streamgage row: `site_no`, the `gagesII_class` column, the
      integer category-indicator columns by name, and the point geometry.
      A category cell that is missing (NaN in the frame) is absent from
      `flags`. */
  datatype GageRecord = GageRecord(
    siteNo: string,
    gagesIIClass: string,
    flags: map<string, int>,
    location: Point)

  /** A streamgage table: its column names and its rows in file order. */
  datatype GageFrame = GageFrame(columns: set<string>, rows: seq<GageRecord>)

  /** The gage lies inside the state's polygon. */
  predicate InState(g: GageRecord, s: StateFeature)
  {
    g.location in s.region
  }

  /** The gage's indicator cell in `column` equals 1. */
  predicate HasFlag(g: GageRecord, column: string)
  {
    column in g.flags && g.flags[column] == 1
  }
}
