/** What the alert banners and the reminder cards have in common. */
module Advisories {

  /** The Material UI alert severities the views use. */
  datatype Severity = Info | Warning | Error
}
