/** The platform values the app only stores, copies and compares: Swift's `Int`,
    `Double`, Foundation's `Date`, CoreLocation's coordinate and the parts of a URL. */
module Platform {

  /** Swift's `Int` on the 64-bit devices the app runs on; `Int64(x)` and `Int(x)`
      are therefore the identity on it. */
  type Int64 = x: int | -0x8000_0000_0000_0000 <= x < 0x8000_0000_0000_0000

  /** An IEEE-754 binary64 value, identified by its bit pattern. The app never
      computes with one: it only copies, compares and formats it. */
  datatype Double = Double(bits: bv64)

  /** 0.0 */
  const Zero: Double := Double(0)

  /** 20.0 */
  const Twenty: Double := Double(0x4034_0000_0000_0000)

  /** How a `Double` is rendered as text (`String(x)`, `x.cleanString`). The model
      does not interpret number formatting, so it is a parameter wherever it is used. */
  type DoubleFormatter = Double -> string

  /** Foundation's `Date`: an interval in seconds since the reference date. */
  datatype Date = Date(timeIntervalSinceReferenceDate: Double)

  /** `CLLocationCoordinate2D` */
  datatype Coordinate = Coordinate(latitude: Double, longitude: Double)

  /** `URLQueryItem` with a value (every item the app builds has one). */
  datatype QueryItem = QueryItem(name: string, value: string)

  /** A URL as `URLComponents` holds it before percent-encoding: the text up to
      the end of the path, and the query items in order. */
  datatype Url = Url(path: string, query: seq<QueryItem>)
}
