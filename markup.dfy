/**
  * The two text formats the report exports offer: Markdown, where headings and list
  * items carry their markers, and plain text, where headings are bare and list items
  * start with a hyphen.
  */
module Markup {
  datatype ExportFormat = Markdown | PlainText

  /** The download's file extension, `'md'` or `'txt'`. */
  function Extension(format: ExportFormat): string {
    match format
    case Markdown => "md"
    case PlainText => "txt"
  }

  function H1(format: ExportFormat): string {
    if format == Markdown then "# " else ""
  }

  function H2(format: ExportFormat): string {
    if format == Markdown then "## " else ""
  }

  function H3(format: ExportFormat): string {
    if format == Markdown then "### " else ""
  }

  function Li(format: ExportFormat): string {
    if format == Markdown then "* " else "- "
  }

  /** `entries.map(e => `${li}${e}`)`: one list item per entry. */
  function Bullets(format: ExportFormat, entries: seq<string>): (r: seq<string>)
    ensures |r| == |entries|
    ensures forall k :: 0 <= k < |entries| ==> r[k] == Li(format) + entries[k]
  {
    seq(|entries|, k requires 0 <= k < |entries| => Li(format) + entries[k])
  }
}
