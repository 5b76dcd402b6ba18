/** src/components/AlertConfiguration.jsx: the alert-rule form, the payload it
    posts, and the event-type badge of the rules table. */
module AlertConfiguration {

  datatype AlertForm = AlertForm(geofenceId: string, vehicleId: string, eventType: string)

  /** The state the form starts in. */
  const InitialForm: AlertForm := AlertForm("", "", "entry")

  const PayloadKeys: set<string> := {"geofence_id", "event_type", "vehicle_id"}

  /** `handleSubmit`'s payload: geofence and event type always, the vehicle only
      when one was chosen (the empty string stands for "All Vehicles"). */
  method BuildPayload(form: AlertForm) returns (payload: map<string, string>)
    ensures "geofence_id" in payload && payload["geofence_id"] == form.geofenceId
    ensures "event_type" in payload && payload["event_type"] == form.eventType
    ensures "vehicle_id" in payload <==> form.vehicleId != ""
    ensures "vehicle_id" in payload ==> payload["vehicle_id"] == form.vehicleId
    ensures payload.Keys <= PayloadKeys
  {
    payload := map["geofence_id" := form.geofenceId, "event_type" := form.eventType];
    if form.vehicleId != "" {
      payload := payload["vehicle_id" := form.vehicleId];
    }
  }

  /** The form after a submit whose POST succeeded or failed: reset to the
      literal the success path writes, or left as the user filled it in. */
  function FormAfterSubmit(form: AlertForm, postSucceeded: bool): (next: AlertForm)
    ensures postSucceeded ==> next == InitialForm
    ensures !postSucceeded ==> next == form
  {
    if postSucceeded then AlertForm("", "", "entry") else form
  }

  datatype BadgeColor = Red | Green | Blue

  /** Entry rules are red, exit rules green, anything else (such as 'both') blue. */
  function EventTypeBadge(eventType: string): (c: BadgeColor)
    ensures c == Red <==> eventType == "entry"
    ensures c == Green <==> eventType == "exit"
    ensures c == Blue <==> eventType != "entry" && eventType != "exit"
  {
    if eventType == "entry" then Red else if eventType == "exit" then Green else Blue
  }
}
