/** The records the app lists, and the errors that flow through its data path. */
module Countries {

  /** A response body (Foundation's `Data`). */
  type Bytes = seq<bv8>

  datatype Currency = Currency(code: string, name: string, symbol: string)

  datatype Language = Language(code: string, name: string)

  /** One entry of the countries document. Only `name` and `capital` take part in
      search; the other fields are carried for display. */
  datatype Country = Country(
    capital: string,
    code: string,
    currency: Currency,
    flag: string,
    language: Language,
    name: string,
    region: string)

  /** The parser's one error. */
  datatype CountriesParserError = DecodingFailure

  /** The service's error enum. `Wrapped` is the Swift case `.failure(Error)`, renamed
      here so that it cannot be confused with `Result.Failure`. */
  datatype CountriesServiceError =
    | Wrapped(underlying: Error)
    | InvalidUrl(url: string)
    | InvalidData
    | DecodingFailure
    | EmptyResponse

  /** Swift's `any Error`, restricted to the values that can reach the core:
      the two enums above, or an error raised by code outside the model
      (a `URLError` from the network, say), known only by an opaque identity. */
  datatype Error =
    | ParserError(parserError: CountriesParserError)
    | ServiceError(serviceError: CountriesServiceError)
    | ForeignError(identity: string)
}
