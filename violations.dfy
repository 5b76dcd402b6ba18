/** src/components/ViolationHistory.jsx: the filter form and the query
    parameters it turns into. */
module ViolationHistory {

  datatype Filters = Filters(
    vehicleId: string, geofenceId: string, startDate: string, endDate: string, limit: string)

  datatype FilterKey = VehicleId | GeofenceId | StartDate | EndDate | Limit

  /** The state the filters start in: everything empty except a limit of '50'. */
  const InitialFilters: Filters := Filters("", "", "", "", "50")

  function Field(f: Filters, k: FilterKey): string
  {
    match k
    case VehicleId => f.vehicleId
    case GeofenceId => f.geofenceId
    case StartDate => f.startDate
    case EndDate => f.endDate
    case Limit => f.limit
  }

  /** The query-parameter name of each filter. */
  function ParamName(k: FilterKey): string
  {
    match k
    case VehicleId => "vehicle_id"
    case GeofenceId => "geofence_id"
    case StartDate => "start_date"
    case EndDate => "end_date"
    case Limit => "limit"
  }

  const ParamNames: set<string> := {"vehicle_id", "geofence_id", "start_date", "end_date", "limit"}

  /** The `params` object of `fetchViolations`: start empty, then copy each filter
      whose value is truthy (for a string, non-empty). */
  method BuildParams(f: Filters) returns (params: map<string, string>)
    ensures forall k: FilterKey :: ParamName(k) in params <==> Field(f, k) != ""
    ensures forall k: FilterKey :: ParamName(k) in params ==> params[ParamName(k)] == Field(f, k)
    ensures params.Keys <= ParamNames
  {
    params := map[];
    if f.vehicleId != "" { params := params["vehicle_id" := f.vehicleId]; }
    if f.geofenceId != "" { params := params["geofence_id" := f.geofenceId]; }
    if f.startDate != "" { params := params["start_date" := f.startDate]; }
    if f.endDate != "" { params := params["end_date" := f.endDate]; }
    if f.limit != "" { params := params["limit" := f.limit]; }
  }

  /** `setFilters({ ...filters, [key]: value })` */
  function HandleFilterChange(f: Filters, key: FilterKey, value: string): (g: Filters)
    ensures Field(g, key) == value
    ensures forall k :: k != key ==> Field(g, k) == Field(f, k)
  {
    match key
    case VehicleId => f.(vehicleId := value)
    case GeofenceId => f.(geofenceId := value)
    case StartDate => f.(startDate := value)
    case EndDate => f.(endDate := value)
    case Limit => f.(limit := value)
  }

  /** `clearFilters`, written out a second time in the source, restores exactly
      the initial filters. */
  function ClearFilters(): (f: Filters)
    ensures f == InitialFilters
    ensures forall k :: k != Limit ==> Field(f, k) == ""
    ensures f.limit == "50"
  {
    Filters("", "", "", "", "50")
  }

  /** Changing a filter re-runs the query: after a reset the query is exactly
      `{limit: '50'}`. */
  method ParamsAfterClear() returns (params: map<string, string>)
    ensures params == map["limit" := "50"]
  {
    params := BuildParams(ClearFilters());
    assert Limit != VehicleId && Limit != GeofenceId && Limit != StartDate && Limit != EndDate;
    assert params.Keys == {"limit"} by {
      assert ParamName(Limit) in params;
      forall n | n in params ensures n == "limit" {
        assert n in ParamNames;
        assert ParamName(VehicleId) !in params && ParamName(GeofenceId) !in params;
        assert ParamName(StartDate) !in params && ParamName(EndDate) !in params;
      }
    }
    assert params[ParamName(Limit)] == "50";
  }
}
