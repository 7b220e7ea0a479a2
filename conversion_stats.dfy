// The conversion_stats dict that both ShpToOpenDriveConverter front-ends
// (src/main.py and SoftwareCopyright/shp2opendrive/shp2xodr.py) keep.

module ConversionStats {
  /** input_roads, output_roads, total_length, conversion_time, errors, warnings. */
  datatype Stats = Stats(inputRoads: int, outputRoads: int, totalLength: real, conversionTime: real,
                         errors: seq<string>, warnings: seq<string>)

  /** The counters a new converter starts with: zeros and empty lists. */
  function InitialStats(): Stats
  {
    Stats(0, 0, 0.0, 0.0, [], [])
  }
}
