/** The alert record the server pushes over the alert stream, as the client sees
    it after `JSON.parse`: the nested vehicle and geofence objects may be absent,
    and `event_type` is whatever string the server sent ("entry" or "exit"; an
    absent field behaves like any string other than "entry"). */
module Alerts {
  import opened Wrappers

  datatype Vehicle = Vehicle(id: string, vehicleNumber: string, driverName: string)

  datatype Geofence = Geofence(id: string, geofenceName: string, category: string)

  datatype Alert = Alert(
    vehicle: Option<Vehicle>,
    geofence: Option<Geofence>,
    eventType: string,
    timestamp: string)
}
