/** The records shared by the receiver, the guidance engine and the views
    (src/types/gps.ts). Optional members are `Option`s; instants are
    milliseconds since the epoch, as returned by `Date.now()`. */
module GpsTypes {
  import opened Wrappers

  datatype Position = Position(
    latitude: real,
    longitude: real,
    altitude: Option<real>,
    speed: Option<real>,
    heading: Option<real>,
    timestamp: int)

  /** A reference line from `pointA` to `pointB`. */
  datatype ABLine = ABLine(
    pointA: Position,
    pointB: Position,
    id: string,
    name: string,
    created: int)

  /** One recorded sample of the vehicle's track. */
  datatype PathPoint = PathPoint(position: Position, treated: bool, timestamp: int)

  datatype GuidanceData = GuidanceData(
    crossTrackError: real,
    distanceToAB: real,
    headingError: real,
    onTrack: bool)
}
