/**
 * Client-side state that several components change: the router location (`setLocation`),
 * the react-query cache (by query key) and the toasts shown so far.
 */
module ClientState {

  datatype Toast = Toast(title: string, description: string, destructive: bool)

  class AppState {
    var location: string
    var queryCache: set<string>
    var toasts: seq<Toast>
  }
}
