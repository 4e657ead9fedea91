/** `CountriesParser`: turns an optional payload into an optional list of countries. */
module Parser {
  import opened Wrappers
  import opened Countries

  /** What Foundation's `JSONDecoder` makes of a payload when asked for `[Country]`.
      The decoder is outside the model and is passed in as a function. */
  datatype DecodeOutcome = Decoded(countries: seq<Country>) | DecodeError(reason: string)

  /** The parser protocol's result type, `Result<[Country]?, Error>`. */
  type ParseResult = Result<Option<seq<Country>>, Error>

  /** The parser's one failure value. */
  const DecodingFailureError: Error := ParserError(CountriesParserError.DecodingFailure)

  /** `CountriesParser.parse`. */
  function Parse(data: Option<Bytes>, decode: Bytes -> DecodeOutcome): (r: ParseResult)
    // "no list" is reported exactly for an absent payload
    ensures r == Success(None) <==> data.None?
    // it fails exactly when a present payload is rejected by the decoder ...
    ensures r.Failure? <==> data.Some? && decode(data.value).DecodeError?
    // ... and then always with the same value, whatever the decoder's reason
    ensures r.Failure? ==> r.error == DecodingFailureError
    // a present payload that decodes yields exactly the decoded list
    ensures data.Some? && decode(data.value).Decoded? ==> r == Success(Some(decode(data.value).countries))
  {
    match data
    case None => Success(None)
    case Some(payload) =>
      match decode(payload)
      case Decoded(countries) => Success(Some(countries))
      case DecodeError(_) => Failure(DecodingFailureError)
  }

  /** An absent payload never reaches the decoder: any two decoders give the same result. */
  lemma AbsentPayloadIgnoresDecoder(decode1: Bytes -> DecodeOutcome, decode2: Bytes -> DecodeOutcome)
    ensures Parse(None, decode1) == Parse(None, decode2) == Success(None)
  {
  }

  /** Decoder errors are collapsed: whatever reasons two rejections give, the results agree. */
  lemma DecoderErrorsCollapse(payload1: Bytes, payload2: Bytes, decode: Bytes -> DecodeOutcome)
    requires decode(payload1).DecodeError? && decode(payload2).DecodeError?
    requires decode(payload1).reason != decode(payload2).reason
    ensures Parse(Some(payload1), decode) == Parse(Some(payload2), decode) == Failure(DecodingFailureError)
  {
  }

  /** An absent payload and a payload holding an empty array are told apart. */
  lemma AbsentDiffersFromEmptyArray(payload: Bytes, decode: Bytes -> DecodeOutcome)
    requires decode(payload) == Decoded([])
    ensures Parse(Some(payload), decode) == Success(Some([]))
    ensures Parse(Some(payload), decode) != Parse(None, decode)
  {
  }

  const Spain: Country :=
    Country("Madrid", "ES", Currency("EUR", "Euro", "€"), "🇪🇸", Language("es", "Spanish"), "Spain", "Europe")

  /** The parser's two unit-test scenarios: a payload the decoder rejects (the text
      "invalid json") fails with a `CountriesParserError`, and the one-record Spain
      document yields a list whose first name is "Spain". */
  lemma ParserTestScenarios(invalidJson: Bytes, spainJson: Bytes, decode: Bytes -> DecodeOutcome)
    requires decode(invalidJson).DecodeError?
    requires decode(spainJson) == Decoded([Spain])
    ensures var r := Parse(Some(invalidJson), decode); r.Failure? && r.error.ParserError?
    ensures var r := Parse(Some(spainJson), decode); r.Success? && r.value.Some? && |r.value.value| > 0
                                                      && r.value.value[0].name == "Spain"
  {
  }
}
