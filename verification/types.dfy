/** Record shapes of the security dashboard: properties with their sensors, and
    emergency calls. Timestamps are integers (milliseconds since the epoch). */
module Types {

  datatype Option<T> = None | Some(value: T)

  /** A point in time, in milliseconds. */
  type Time = int

  const Minute: int := 60 * 1000
  const Hour: int := 60 * Minute

  datatype PropertyStatus = Armed | Disarmed | Alarm | Maintenance

  datatype SensorType = Motion | Door | Window | Smoke | Glass

  datatype SensorStatus = Active | Inactive | Triggered | Offline

  datatype Sensor = Sensor(id: string, kind: SensorType, status: SensorStatus, location: string)

  datatype Property = Property(
    id: string,
    address: string,
    number: string,
    status: PropertyStatus,
    lastStatusChange: Time,
    sensors: seq<Sensor>)

  /** The four categories of an emergency call. */
  datatype EmergencyKind = Police | Fire | Medical | Security

  datatype CallStatus = Pending | Dispatched | Resolved

  /** An emergency call. Its category is kept as the raw string it was created
      with: the component stores whatever string the caller passes, unchecked. */
  datatype EmergencyCall = EmergencyCall(
    id: string,
    propertyId: string,
    userId: string,
    kind: string,
    status: CallStatus,
    timestamp: Time,
    location: Option<string>,
    description: Option<string>)

  /** What became of a best-effort notification to the remote endpoint. */
  datatype Delivery = Delivered | Rejected
}
