/** The records shared between the worker and the page (shared/types.ts). */
module Types {
  import opened Wrappers

  /** A row of the demo list. JavaScript's `number` is modelled as an unbounded integer. */
  datatype DemoItem = DemoItem(id: string, name: string, value: int)

  /** A partial update of a demo item: each field may be absent, and a patch never carries an id. */
  datatype DemoItemPatch = DemoItemPatch(name: Option<string>, value: Option<int>)

  datatype SystemInfo = SystemInfo(timestamp: string, environment: string, version: string, uptime: string)

  /** A partial update of the system information: each field may be absent. */
  datatype SystemInfoPatch = SystemInfoPatch(
    timestamp: Option<string>,
    environment: Option<string>,
    version: Option<string>,
    uptime: Option<string>)

  /** The string union `'connected' | 'disconnected' | 'checking'`. */
  datatype ConnectionStatus = Connected | Disconnected | Checking

  datatype UiPathStatus = UiPathStatus(
    connected: bool,
    orchestratorUrl: Option<string>,
    lastChecked: string,
    status: ConnectionStatus)

  /** A partial update of the UiPath status: each field may be absent. */
  datatype UiPathStatusPatch = UiPathStatusPatch(
    connected: Option<bool>,
    orchestratorUrl: Option<string>,
    lastChecked: Option<string>,
    status: Option<ConnectionStatus>)

  /** The response envelope `{ success, data?, error? }`. */
  datatype ApiResponse<T> = ApiResponse(success: bool, data: Option<T>, error: Option<string>)

  /** The envelope of a successful call: the data and no error. */
  function Success<T>(data: T): (r: ApiResponse<T>)
    ensures r.success && r.data == Some(data) && r.error.None?
  {
    ApiResponse(true, Some(data), None)
  }

  /** The envelope of a failed call: a message and no data. */
  function Failure<T>(message: string): (r: ApiResponse<T>)
    ensures !r.success && r.data.None? && r.error == Some(message)
  {
    ApiResponse(false, None, Some(message))
  }
}
