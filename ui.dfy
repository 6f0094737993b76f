/**
 * What the wizard screens hand to the router and the alert dialog, and what
 * the device camera hands back. Navigation and alerts are returned as values.
 */
module Ui {
  import opened Wrappers

  /** Route parameters (`useLocalSearchParams`): string-valued, keyed by field name. */
  type Params = map<string, string>

  /** The effect of a button handler: an `Alert.alert(title, message)` or a `router.push`. */
  datatype Outcome =
    | Alert(title: string, message: string)
    | Navigate(pathname: string, params: Params)

  /** A route parameter read as a string; an absent parameter reads as "". */
  function Param(p: Params, key: string): (v: string)
    ensures key in p ==> v == p[key]
    ensures key !in p ==> v == ""
    ensures v != "" ==> key in p
  {
    if key in p then p[key] else ""
  }

  /** What a camera launch yields: no permission, a cancelled capture, or the URI of the photo taken. */
  datatype CameraResult = PermissionDenied | Canceled | Captured(uri: string)

  /** JavaScript truthiness of a `string | null` photo slot: set and non-empty. */
  predicate Present(photo: Option<string>): (b: bool)
    ensures b ==> photo.Some? && |photo.value| > 0
    ensures photo.Some? && |photo.value| > 0 ==> b
  {
    photo.Some? && photo.value != ""
  }
}
