/** `CountriesService`: one fetch of the countries document, with the test doubles
    and launch-argument switches that live beside it. */
module Service {
  import opened Wrappers
  import opened Countries
  import opened Parser

  const DefaultUrlString: string :=
    "https://gist.githubusercontent.com/peymano-wmt/32dcb892b06648910ddd40406e37fdab/raw/db25946fd77c5873b0303b858e861ce724e0dcd0/countries.json"
  const MockUrlString: string := "https://mock.url"

  /** Launch arguments the service looks for (compared as whole arguments). */
  const MockEmptyResponseArgument: string := "-mockEmptyResponse"
  const MockFailureArgument: string := "-mockFailure"
  const MockEmptyDataArgument: string := "-mockEmptyData"

  const NetworkErrorPrefix: string := "Network error: "
  const InvalidUrlPrefix: string := "Invalid URL: "
  const InvalidDataText: string := "Received invalid data"
  const DecodingFailureText: string := "Failed to decode response"
  const EmptyResponseText: string := "Received empty response"

  /** `CountriesServiceError.localizedDescription`. The text of a wrapped error comes
      from Foundation and is passed in as `describe`. */
  function LocalizedDescription(e: CountriesServiceError, describe: Error -> string): (s: string)
    ensures e.Wrapped? <==> NetworkErrorPrefix <= s
    ensures e.Wrapped? ==> s[|NetworkErrorPrefix|..] == describe(e.underlying)
    ensures e.InvalidUrl? <==> InvalidUrlPrefix <= s
    ensures e.InvalidUrl? ==> s[|InvalidUrlPrefix|..] == e.url
    ensures e.InvalidData? <==> s == InvalidDataText
    ensures e.DecodingFailure? <==> s == DecodingFailureText
    ensures e.EmptyResponse? <==> s == EmptyResponseText
  {
    match e
    case Wrapped(underlying) =>
      var s := NetworkErrorPrefix + describe(underlying);
      assert s[0] == 'N';
      s
    case InvalidUrl(url) =>
      var s := InvalidUrlPrefix + url;
      assert s[0] == 'I';
      s
    case InvalidData =>
      assert InvalidDataText[0] == 'R';
      InvalidDataText
    case DecodingFailure =>
      assert DecodingFailureText[0] == 'F';
      DecodingFailureText
    case EmptyResponse =>
      assert EmptyResponseText[0] == 'R';
      EmptyResponseText
  }

  /** The description gives the error back: two errors with the same description are
      the same error, except that wrapped errors are only known by their own text. */
  lemma DescriptionIdentifiesError(e1: CountriesServiceError, e2: CountriesServiceError, describe: Error -> string)
    requires LocalizedDescription(e1, describe) == LocalizedDescription(e2, describe)
    ensures e1.Wrapped? <==> e2.Wrapped?
    ensures e1.Wrapped? ==> describe(e1.underlying) == describe(e2.underlying)
    ensures !e1.Wrapped? ==> e1 == e2
  {
  }

  /** The transport a service was built with. */
  datatype Session =
    | SharedSession                                                     // `URLSession.shared`, the real network
    | MockURLSession(mockData: Option<Bytes>, mockError: Option<Error>)

  /** `MockURLSession.data(from:)`. */
  function MockSessionData(mockData: Option<Bytes>, mockError: Option<Error>): (r: Result<Bytes, Error>)
    // a set error wins over any data
    ensures mockError.Some? ==> r == Failure(mockError.value)
    // with neither set it throws invalidData
    ensures mockError.None? && mockData.None? ==> r == Failure(ServiceError(InvalidData))
    // it returns data exactly when no error is set and data is, and then that data
    ensures r.Success? <==> mockError.None? && mockData.Some?
    ensures r.Success? ==> r.value == mockData.value
  {
    if mockError.Some? then Failure(mockError.value)
    else if mockData.None? then Failure(ServiceError(InvalidData))
    else Success(mockData.value)
  }

  /** The parser a service was built with. */
  datatype ParserChoice =
    | CountriesParser                              // the JSON parser of module Parser
    | MockCountriesParser(mockResult: ParseResult)

  /** The parser protocol's `parse`, dispatched on the injected parser. */
  function RunParser(parser: ParserChoice, data: Option<Bytes>, decode: Bytes -> DecodeOutcome): (r: ParseResult)
    // the JSON parser is `CountriesParser.parse`
    ensures parser.CountriesParser? ==> r == Parse(data, decode)
    // the mock ignores the payload and answers its canned result
    ensures parser.MockCountriesParser? ==> r == parser.mockResult
  {
    match parser
    case CountriesParser => Parse(data, decode)
    case MockCountriesParser(mockResult) => mockResult
  }

  /** A `CountriesService` as configured by its initializer. */
  datatype CountriesService = CountriesService(urlString: string, urlSession: Session, parser: ParserChoice)

  /** `CountriesService()` with every default argument. */
  const DefaultService: CountriesService := CountriesService(DefaultUrlString, SharedSession, CountriesParser)

  /** `CountriesService.mockService(with:)`: the mock parser succeeds with `countries`,
      the mock session has neither data nor error. */
  function MockService(countries: seq<Country>): (svc: CountriesService)
    ensures svc.urlString == MockUrlString
    ensures svc.urlSession == MockURLSession(None, None)
    ensures svc.parser == MockCountriesParser(Success(Some(countries)))
  {
    CountriesService(MockUrlString, MockURLSession(None, None), MockCountriesParser(Success(Some(countries))))
  }

  /** `CountriesService.failingService(error:)`: the mock parser fails with `error`,
      the mock session has neither data nor error. */
  function FailingService(error: Error): (svc: CountriesService)
    ensures svc.urlString == MockUrlString
    ensures svc.urlSession == MockURLSession(None, None)
    ensures svc.parser == MockCountriesParser(Failure(error))
  {
    CountriesService(MockUrlString, MockURLSession(None, None), MockCountriesParser(Failure(error)))
  }

  /** What `fetchCountries` reads from outside the service object. */
  datatype Environment = Environment(
    arguments: seq<string>,                    // `ProcessInfo.processInfo.arguments`
    urlParses: string -> bool,                 // whether `URL(string:)` accepts a string
    network: string -> Result<Bytes, Error>,   // what `URLSession.shared.data(from:)` yields for a URL
    decode: Bytes -> DecodeOutcome)            // `JSONDecoder().decode([Country].self, from:)`

  /** The session protocol's `data(from:)`, dispatched on the injected session. */
  function SessionData(session: Session, url: string, env: Environment): (r: Result<Bytes, Error>)
    // the shared session is the network; a mock session never touches it
    ensures session.SharedSession? ==> r == env.network(url)
    ensures session.MockURLSession? ==> r == MockSessionData(session.mockData, session.mockError)
  {
    match session
    case SharedSession => env.network(url)
    case MockURLSession(mockData, mockError) => MockSessionData(mockData, mockError)
  }

  /** The `do` block of `fetchCountries`: what it returns, or what it throws before
      the `catch` sees it. */
  function RequestAndParse(svc: CountriesService, env: Environment): (r: Result<seq<Country>, Error>)
    // it returns only after a request that succeeded, without -mockEmptyData
    ensures r.Success? ==> SessionData(svc.urlSession, svc.urlString, env).Success?
                           && MockEmptyDataArgument !in env.arguments
    // what it throws is the transport's error, emptyResponse, or the parser's error
    ensures r.Failure? ==>
              var data := SessionData(svc.urlSession, svc.urlString, env);
              || (data.Failure? && r.error == data.error)
              || (data.Success? && MockEmptyDataArgument in env.arguments && r.error == ServiceError(EmptyResponse))
              || (data.Success? && RunParser(svc.parser, Some(data.value), env.decode) == Failure(r.error))
  {
    match SessionData(svc.urlSession, svc.urlString, env)
    case Failure(e) => Failure(e)
    case Success(data) =>
      if MockEmptyDataArgument in env.arguments then Failure(ServiceError(EmptyResponse))
      else
        match RunParser(svc.parser, Some(data), env.decode)
        case Success(countries) => Success(countries.GetOr([]))
        case Failure(e) => Failure(e)
  }

  /** `CountriesService.fetchCountries`; a thrown error is a `Failure`. */
  function FetchCountries(svc: CountriesService, env: Environment): (r: Result<seq<Country>, Error>)
    // everything it throws is a CountriesServiceError ...
    ensures r.Failure? ==> r.error.ServiceError?
    // ... and never a bare decodingFailure or emptyResponse: those only ever arrive wrapped
    ensures r.Failure? ==> !r.error.serviceError.DecodingFailure? && !r.error.serviceError.EmptyResponse?
    // invalidUrl is thrown exactly when the URL string does not parse, and carries that string
    ensures (r.Failure? && r.error.serviceError.InvalidUrl?) <==> !env.urlParses(svc.urlString)
    ensures r.Failure? && r.error.serviceError.InvalidUrl? ==> r.error.serviceError.url == svc.urlString
    // an unwrapped invalidData comes only from the -mockFailure switch
    ensures r.Failure? && r.error.serviceError.InvalidData? ==> MockFailureArgument in env.arguments
  {
    if !env.urlParses(svc.urlString) then
      Failure(ServiceError(InvalidUrl(svc.urlString)))
    else if MockEmptyResponseArgument in env.arguments then
      Success([])
    else if MockFailureArgument in env.arguments then
      Failure(ServiceError(InvalidData))
    else
      match RequestAndParse(svc, env)
      case Success(countries) => Success(countries)
      case Failure(e) => Failure(ServiceError(Wrapped(e)))
  }

  /** An unparsable URL is reported before anything else is looked at: the result
      does not depend on the launch arguments, the network, the decoder, the session
      or the parser. */
  lemma InvalidUrlComesFirst(svc: CountriesService, svc': CountriesService, env: Environment, env': Environment)
    requires svc'.urlString == svc.urlString
    requires !env.urlParses(svc.urlString) && !env'.urlParses(svc.urlString)
    ensures FetchCountries(svc, env) == FetchCountries(svc', env') == Failure(ServiceError(InvalidUrl(svc.urlString)))
  {
  }

  /** With a valid URL, -mockEmptyResponse yields an empty list without a request,
      even when -mockFailure is present too. */
  lemma MockEmptyResponseWins(svc: CountriesService, svc': CountriesService, env: Environment, env': Environment)
    requires svc'.urlString == svc.urlString
    requires env.urlParses(svc.urlString) && env'.urlParses(svc.urlString)
    requires MockEmptyResponseArgument in env.arguments && MockEmptyResponseArgument in env'.arguments
    ensures FetchCountries(svc, env) == FetchCountries(svc', env') == Success([])
  {
  }

  /** With a valid URL and -mockFailure but not -mockEmptyResponse, invalidData is
      thrown unwrapped, without a request. */
  lemma MockFailureThrowsInvalidData(svc: CountriesService, svc': CountriesService, env: Environment, env': Environment)
    requires svc'.urlString == svc.urlString
    requires env.urlParses(svc.urlString) && env'.urlParses(svc.urlString)
    requires MockEmptyResponseArgument !in env.arguments && MockEmptyResponseArgument !in env'.arguments
    requires MockFailureArgument in env.arguments && MockFailureArgument in env'.arguments
    ensures FetchCountries(svc, env) == FetchCountries(svc', env') == Failure(ServiceError(InvalidData))
  {
  }

  /** The launch tests pass "--mockEmptyResponse" and "--mockFailure"; those are
      different arguments and switch nothing on. */
  lemma DoubleDashArgumentsAreIgnored(svc: CountriesService, env: Environment)
    ensures FetchCountries(svc, env.(arguments := env.arguments + ["--mockEmptyResponse", "--mockFailure"]))
         == FetchCountries(svc, env)
  {
    var env' := env.(arguments := env.arguments + ["--mockEmptyResponse", "--mockFailure"]);
    assert MockEmptyResponseArgument in env'.arguments <==> MockEmptyResponseArgument in env.arguments;
    assert MockFailureArgument in env'.arguments <==> MockFailureArgument in env.arguments;
    assert MockEmptyDataArgument in env'.arguments <==> MockEmptyDataArgument in env.arguments;
  }

  /** The switches that apply once a request is made. */
  predicate Requests(svc: CountriesService, env: Environment)
  {
    env.urlParses(svc.urlString)
    && MockEmptyResponseArgument !in env.arguments
    && MockFailureArgument !in env.arguments
  }

  /** A transport error `e` surfaces as `.failure(e)`. */
  lemma TransportErrorIsWrapped(svc: CountriesService, env: Environment, e: Error)
    requires Requests(svc, env)
    requires SessionData(svc.urlSession, svc.urlString, env) == Failure(e)
    ensures FetchCountries(svc, env) == Failure(ServiceError(Wrapped(e)))
  {
  }

  /** After a successful request, -mockEmptyData throws emptyResponse, which the
      `catch` wraps; the parser is not consulted, so any parser gives the same result. */
  lemma MockEmptyDataSkipsParser(svc: CountriesService, env: Environment, parser: ParserChoice, decode: Bytes -> DecodeOutcome)
    requires Requests(svc, env) && MockEmptyDataArgument in env.arguments
    requires SessionData(svc.urlSession, svc.urlString, env).Success?
    ensures FetchCountries(svc, env) == FetchCountries(svc.(parser := parser), env.(decode := decode))
                                     == Failure(ServiceError(Wrapped(ServiceError(EmptyResponse))))
  {
  }

  /** After a successful request without -mockEmptyData, the parser's outcome decides:
      no list gives [], a list is returned as it is, and an error is wrapped. */
  lemma ParserOutcomeDecides(svc: CountriesService, env: Environment)
    requires Requests(svc, env) && MockEmptyDataArgument !in env.arguments
    requires SessionData(svc.urlSession, svc.urlString, env).Success?
    ensures var data := SessionData(svc.urlSession, svc.urlString, env).value;
            var parsed := RunParser(svc.parser, Some(data), env.decode);
            FetchCountries(svc, env) == match parsed
              case Success(None) => Success([])
              case Success(Some(countries)) => Success(countries)
              case Failure(e) => Failure(ServiceError(Wrapped(e)))
  {
  }

  /** With the JSON parser, the payload handed over is always present, so the result is
      exactly the decoded list, or the parser's decodingFailure wrapped in `.failure`. */
  lemma JsonParserThroughService(svc: CountriesService, env: Environment)
    requires Requests(svc, env) && MockEmptyDataArgument !in env.arguments
    requires svc.parser == CountriesParser
    requires SessionData(svc.urlSession, svc.urlString, env).Success?
    ensures var decoded := env.decode(SessionData(svc.urlSession, svc.urlString, env).value);
            FetchCountries(svc, env) == match decoded
              case Decoded(countries) => Success(countries)
              case DecodeError(_) => Failure(ServiceError(Wrapped(DecodingFailureError)))
  {
  }

  /** The unit test that expects a parser failure to come out as a `CountriesParserError`
      cannot pass: whatever the environment, no fetch throws one. */
  lemma ParserErrorNeverEscapes(svc: CountriesService, env: Environment)
    ensures FetchCountries(svc, env).Failure? ==> !FetchCountries(svc, env).error.ParserError?
  {
  }

  /** Both factory services use a mock session with neither data nor error, so without
      launch switches the request throws invalidData, the `catch` wraps it, and the
      mock parser's canned result is never reached. */
  lemma FactoryServicesFailBeforeParsing(countries: seq<Country>, error: Error, env: Environment)
    requires Requests(MockService(countries), env)
    ensures FetchCountries(MockService(countries), env) == Failure(ServiceError(Wrapped(ServiceError(InvalidData))))
    ensures FetchCountries(FailingService(error), env) == Failure(ServiceError(Wrapped(ServiceError(InvalidData))))
  {
  }
}
