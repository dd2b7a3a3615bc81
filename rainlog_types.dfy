/**
 * The record and identity shapes of the rainfall-record service
 * (src/models/rainlogTypes.ts and src/models/userTypes.ts).
 */
module RainlogTypes {

  /** A calendar instant, as milliseconds since the epoch. */
  type Date = int

  /** A store identifier: the 24 lower-case hexadecimal digits of an object id. */
  datatype ObjectId = ObjectId(hex: string)

  /** A stored rainfall record, with the identifier the store gave it. */
  datatype Rainlog = Rainlog(
    id: ObjectId,
    date: Date,
    records: seq<string>,
    measurement: real,
    realReading: bool,
    location: string,
    timestamp: Date,
    loggedBy: string)

  /** The verified identity that the identity service returns. */
  datatype User = User(
    id: string,
    name: string,
    email: string,
    role: string,
    permissions: seq<string>,
    passwordChangedAt: Date,
    version: int)
}
