/** What the commands send to the rich console, one item per `console.print` call. */
module Console {
  import opened JsonValue
  import opened HttpResponse

  /** The text handed to a rich `Syntax` block. */
  datatype Code =
    | Source(text: string)
    /** `json.dumps(value, indent=4)` */
    | JsonIndented(value: Json)

  datatype Printed =
    /** `console.print(text)`: a string, rich markup included. */
    | Markup(text: string)
    /** `'[blue]event:[/] [green]{escape(name)}[/]'` in the SSE reader. */
    | EventMarker(name: string)
    /** `console.print(Syntax(code, lexer))`. */
    | Highlighted(code: Code, lexer: string)
    /** `print_response_headers(response)`, a helper of another module. */
    | ResponseHeaders(response: Response)
    /** `console.print()` with no argument. */
    | Blank
}
