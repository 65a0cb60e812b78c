/**
 * `formatDate` (src/modules/utils.js and app.js): an empty date stays empty; any other date
 * is written out by the browser's locale formatter, which is a parameter here.
 */
module Dates {
  /** The empty string (or a missing date) gives the empty string; the formatter never sees it. */
  function FormatDate(s: string, localeDate: string -> string): (r: string)
    ensures s == "" ==> r == ""
    ensures s != "" ==> r == localeDate(s)
  {
    if s == "" then "" else localeDate(s)
  }
}
