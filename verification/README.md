# Countries data path, modelled in Dafny

The Countries iOS app fetches a JSON document of countries, decodes it and publishes the list to a view
model. A table view then shows that list, or a search-filtered part of it. This project models that data path:

- `wrappers.dfy` (`Wrappers`): `Option` and `Result`. These are the Swift optional and `Result`. A throwing
  call's outcome is also written as a `Result`: a thrown error is a `Failure`.
- `countries.dfy` (`Countries`): the `Country`, `Currency` and `Language` records, and the error taxonomy.
  The taxonomy is `CountriesParserError`, `CountriesServiceError`, and `Error` as the union of the two plus
  errors raised outside the model. The Swift case `CountriesServiceError.failure(Error)` is called
  `Wrapped` here, so that it cannot be confused with `Result.Failure`.
- `parser.dfy` (`Parser`): `CountriesParser.parse`. `JSONDecoder` is a function parameter from bytes to
  "decoded list" or "decoder error".
- `service.dfy` (`Service`): `CountriesServiceError.localizedDescription`, `CountriesService.fetchCountries`,
  the `MockURLSession` and `MockCountriesParser` doubles, and the `mockService`/`failingService` factories.
  Everything the fetch reads from outside the service object is an `Environment`:
  - the launch arguments;
  - whether `URL(string:)` accepts a string;
  - what `URLSession.shared` answers for a URL;
  - the JSON decoder.
- `viewmodel.dfy` (`ViewModel`): Combine's `CurrentValueSubject`, a class with a current value and the log of
  values sent. `CountriesViewModel` holds two such subjects and a `CountriesServiceProtocol`, which is either the
  app's `CountriesService` (`Live`; the default argument `CountriesService()` is `Live(DefaultService)`, used by the `Default` constructor) or the unit tests'
  `MockCountriesService`. `CompleteRefresh` is the main-queue block that
  runs when one refresh's fetch finishes. The value-level `Complete`/`CompleteAll` functions state what any
  sequence of finished refreshes leaves behind, in completion order.
- `viewcontroller.dfy` (`ViewController`): the search filter (`FilterCountries`, with `Matches` as its
  closure), and a `CountriesViewController` class. The class holds the search bar state and
  `filteredCountries`, with `isSearchBarEmpty`, `isFiltering`, the displayed list, the row count and row lookup.

The model follows the code as written, including where it departs from what its tests expect:

- A natural reading is that parser errors leave `fetchCountries` unchanged. In the code, the `catch` at
  `CountriesService.swift:84-87` wraps everything thrown inside the `do` block in `.failure(...)`. That
  includes the parser's error and `emptyResponse`. `Service.ParserErrorNeverEscapes` shows that no fetch
  ever throws a `CountriesParserError`. So the unit test at `CountriesChallengeTests.swift:141-155`, which
  expects one, cannot pass. `CountriesServiceError.decodingFailure` is never thrown at all.
- The search-filtering unit test (`CountriesChallengeTests.swift:288-322`) calls `performSearch` but never
  activates the search controller. `isFiltering` is then false and the table shows the full list.
  `ViewController.SearchFilteringScenario` shows that the filtered list is `[Germany]`. It also shows 2 rows
  with the search inactive, and 1 row only when the search is active.
- The launch tests pass `--mockEmptyResponse` and `--mockFailure` with two dashes. The service compares
  whole arguments against `-mockEmptyResponse` and `-mockFailure`, so these switch nothing on
  (`Service.DoubleDashArgumentsAreIgnored`).
- A successful refresh does not clear an earlier error (`ViewModel.StaleErrorAndCompletionOrder`).

## Model

| member | source | states |
|---|---|---|
| `Parser.Parse` | ios-sdet-challenge-main/CountriesChallenge/CountriesParser.swift:8-17 | "no list" exactly for an absent payload; failure exactly when the decoder rejects a present payload, and then always `decodingFailure`; a decoded payload yields exactly the decoded list |
| `Parser.AbsentPayloadIgnoresDecoder` | ios-sdet-challenge-main/CountriesChallenge/CountriesParser.swift:9 | an absent payload gives `success(nil)` whatever the decoder, so the decoder is never consulted |
| `Parser.DecoderErrorsCollapse` | ios-sdet-challenge-main/CountriesChallenge/CountriesParser.swift:14-16 | decoder errors with different reasons give the same single `decodingFailure` |
| `Parser.AbsentDiffersFromEmptyArray` | ios-sdet-challenge-main/CountriesChallenge/CountriesParser.swift:9-13 | a payload decoding to an empty array gives `success([])`, distinct from the absent payload's `success(nil)` |
| `Parser.ParserTestScenarios` | ios-sdet-challenge-main/CountriesChallengeTests/CountriesChallengeTests.swift:159-210 | a rejected payload fails with a `CountriesParserError`; the one-record Spain document yields a list whose first name is "Spain" |
| `Service.LocalizedDescription` | ios-sdet-challenge-main/CountriesChallenge/RemoteServices/CountriesService.swift:15-28 | "Network error: " prefix exactly for wrapped errors, followed by the underlying text; "Invalid URL: " prefix exactly for `invalidUrl`, followed by the URL; each of the three other cases has its own fixed text, and only that case produces it |
| `Service.DescriptionIdentifiesError` | ios-sdet-challenge-main/CountriesChallenge/RemoteServices/CountriesService.swift:15-28 | equal descriptions mean equal errors, except that wrapped errors are identified only up to their underlying text |
| `Service.MockSessionData` | ios-sdet-challenge-main/CountriesChallenge/RemoteServices/CountriesService.swift:134-144 | a set `mockError` wins over `mockData`; neither set throws `invalidData`; otherwise the mock data is returned |
| `Service.RunParser` | ios-sdet-challenge-main/CountriesChallenge/RemoteServices/CountriesService.swift:100-105 | the JSON parser is `CountriesParser.parse`; the mock parser ignores the payload and answers its canned `mockResult` |
| `Service.MockService` | ios-sdet-challenge-main/CountriesChallenge/RemoteServices/CountriesService.swift:109-117 | the URL "https://mock.url", a mock session with neither data nor error, and a mock parser that succeeds with the given list |
| `Service.FailingService` | ios-sdet-challenge-main/CountriesChallenge/RemoteServices/CountriesService.swift:119-127 | the URL "https://mock.url", a mock session with neither data nor error, and a mock parser that fails with the given error |
| `Service.SessionData` | ios-sdet-challenge-main/CountriesChallenge/RemoteServices/CountriesService.swift:69 | the shared session answers what the network answers for the URL; a mock session never reaches the network and answers by its own rule |
| `Service.RequestAndParse` | ios-sdet-challenge-main/CountriesChallenge/RemoteServices/CountriesService.swift:68-83 | a list comes back only after a request that succeeded and without `-mockEmptyData`; what it throws is the transport's error, `emptyResponse` under `-mockEmptyData`, or the parser's error |
| `Service.FetchCountries` | ios-sdet-challenge-main/CountriesChallenge/RemoteServices/CountriesService.swift:54-88 | every thrown error is a `CountriesServiceError`, never a bare `decodingFailure` or `emptyResponse`; `invalidUrl` is thrown exactly when the URL does not parse and carries that URL string; an unwrapped `invalidData` only under `-mockFailure` |
| `Service.InvalidUrlComesFirst` | ios-sdet-challenge-main/CountriesChallenge/RemoteServices/CountriesService.swift:55-57 | an unparsable URL gives `invalidUrl(urlString)` whatever the launch arguments, network, decoder, session or parser |
| `Service.MockEmptyResponseWins` | ios-sdet-challenge-main/CountriesChallenge/RemoteServices/CountriesService.swift:60-62 | with a valid URL, `-mockEmptyResponse` gives `[]` with no request, even alongside `-mockFailure` |
| `Service.MockFailureThrowsInvalidData` | ios-sdet-challenge-main/CountriesChallenge/RemoteServices/CountriesService.swift:64-66 | with a valid URL, `-mockFailure` without `-mockEmptyResponse` throws an unwrapped `invalidData` with no request |
| `Service.DoubleDashArgumentsAreIgnored` | ios-sdet-challenge-main/CountriesChallenge/RemoteServices/CountriesService.swift:60-72 | for any service and any launch arguments, adding "--mockEmptyResponse" and "--mockFailure" does not change the result |
| `Service.TransportErrorIsWrapped` | ios-sdet-challenge-main/CountriesChallenge/RemoteServices/CountriesService.swift:68-87 | a transport error `e` surfaces as `failure(e)` |
| `Service.MockEmptyDataSkipsParser` | ios-sdet-challenge-main/CountriesChallenge/RemoteServices/CountriesService.swift:69-87 | after a successful request, `-mockEmptyData` gives `failure(emptyResponse)` whatever the parser and decoder |
| `Service.ParserOutcomeDecides` | ios-sdet-challenge-main/CountriesChallenge/RemoteServices/CountriesService.swift:76-87 | after a successful request: parser `success(nil)` gives `[]`, `success(list)` gives that list as it is, `failure(e)` gives `failure(e)` |
| `Service.JsonParserThroughService` | ios-sdet-challenge-main/CountriesChallenge/RemoteServices/CountriesService.swift:76-87 | with the JSON parser the result is exactly the decoded list, or `failure(decodingFailure)` from the parser |
| `Service.ParserErrorNeverEscapes` | ios-sdet-challenge-main/CountriesChallenge/RemoteServices/CountriesService.swift:78-87 | no fetch throws a `CountriesParserError` |
| `Service.FactoryServicesFailBeforeParsing` | ios-sdet-challenge-main/CountriesChallenge/RemoteServices/CountriesService.swift:109-127 | without launch switches both factory services give `failure(invalidData)`; the mock parser's result is never reached |
| `ViewModel.CurrentValueSubject.constructor` | ios-sdet-challenge-main/CountriesChallenge/ViewModels/CountriesViewModel.swift:18-19 | a subject starts with its initial value and nothing sent |
| `ViewModel.CurrentValueSubject.Send` | ios-sdet-challenge-main/CountriesChallenge/ViewModels/CountriesViewModel.swift:26 | `send` replaces the current value and appends it to what subscribers receive |
| `ViewModel.Complete` | ios-sdet-challenge-main/CountriesChallenge/ViewModels/CountriesViewModel.swift:22-33 | a success replaces the list wholesale and keeps the error; a failure sets the error and keeps the list |
| `ViewModel.CompleteAll` | ios-sdet-challenge-main/CountriesChallenge/ViewModels/CountriesViewModel.swift:21-33 | refreshes that all failed leave the list as it was; refreshes that all succeeded leave the error as it was |
| `ViewModel.LastWriteWins` | ios-sdet-challenge-main/CountriesChallenge/ViewModels/CountriesViewModel.swift:21-33 | after finished refreshes in completion order, the list is the last success's (or the earlier list) and the error the last failure's (or the earlier error) |
| `ViewModel.FromInitial` | ios-sdet-challenge-main/CountriesChallenge/ViewModels/CountriesViewModel.swift:18-33 | from a fresh view model: the last success's list or `[]`, and the last failure's error or absent |
| `ViewModel.StaleErrorAndCompletionOrder` | ios-sdet-challenge-main/CountriesChallenge/ViewModels/CountriesViewModel.swift:24-31 | a success after a failure keeps the stale error; of two successes, the one finishing last wins |
| `ViewModel.FetchFrom` | ios-sdet-challenge-main/CountriesChallenge/ViewModels/CountriesViewModel.swift:24 | the app's service answers `fetchCountries`; the unit tests' `MockCountriesService` (ios-sdet-challenge-main/CountriesChallengeTests/CountriesChallengeTests.swift:14-35) answers its `mockCountries` when `shouldSucceed` and throws `invalidData` otherwise |
| `ViewModel.CountriesViewModel.constructor` | ios-sdet-challenge-main/CountriesChallenge/ViewModels/CountriesViewModel.swift:13-19 | the list starts empty, the error absent, nothing sent, and the service is the one given |
| `ViewModel.CountriesViewModel.Default` | ios-sdet-challenge-main/CountriesChallenge/ViewModels/CountriesViewModel.swift:13-19 | with the default argument the service is the app's `CountriesService()`; the list starts empty, the error absent, nothing sent |
| `ViewModel.CountriesViewModel.CompleteRefresh` | ios-sdet-challenge-main/CountriesChallenge/ViewModels/CountriesViewModel.swift:25-31 | the new values are `Complete` of the old ones; exactly one of the two subjects receives one send, and the other is left as it was |
| `ViewModel.CountriesViewModel.RefreshCountries` | ios-sdet-challenge-main/CountriesChallenge/ViewModels/CountriesViewModel.swift:21-33 | a refresh with nothing overlapping publishes the outcome of `fetchCountries` on the view model's service: a list goes to the countries subject's subscribers, an error to the error subject's, exactly one send, and the other subject's log is left as it was |
| `ViewModel.SuccessfulFetchScenario` | ios-sdet-challenge-main/CountriesChallengeTests/CountriesChallengeTests.swift:78-97 | `refreshCountries` on a view model holding a succeeding `MockCountriesService` delivers one list of one country named "Germany" |
| `ViewModel.FailedFetchScenario` | ios-sdet-challenge-main/CountriesChallengeTests/CountriesChallengeTests.swift:99-118 | `refreshCountries` on a view model holding a failing `MockCountriesService` delivers one non-nil error |
| `ViewController.Lowercased` | ios-sdet-challenge-main/CountriesChallenge/ViewControllers/CountriesViewController.swift:186-191 | same length; each upper-case ASCII letter becomes its lower-case letter, no upper-case letter is left, every other character is kept |
| `ViewController.Contains` | ios-sdet-challenge-main/CountriesChallenge/ViewControllers/CountriesViewController.swift:190-191 | the empty string is contained in every string; a contained string is never longer than its container |
| `ViewController.ContainsAtOffset` | ios-sdet-challenge-main/CountriesChallenge/ViewControllers/CountriesViewController.swift:190-191 | `contains` holds exactly when the needle occurs at some offset of the haystack |
| `ViewController.Matches` | ios-sdet-challenge-main/CountriesChallenge/ViewControllers/CountriesViewController.swift:186-191 | empty search text keeps every country; non-empty text that matches is no longer than the name or the capital |
| `ViewController.MatchesIgnoresCase` | ios-sdet-challenge-main/CountriesChallenge/ViewControllers/CountriesViewController.swift:186-191 | lowering the search text first does not change which countries match |
| `ViewController.FilterCountries` | ios-sdet-challenge-main/CountriesChallenge/ViewControllers/CountriesViewController.swift:188-192 | the filtered list is no longer than the full list, and holds only countries of it that match |
| `ViewController.EmptySearchKeepsAll` | ios-sdet-challenge-main/CountriesChallenge/ViewControllers/CountriesViewController.swift:188-189 | with empty search text the filtered list is the full list |
| `ViewController.FilterKeepsExactlyMatches` | ios-sdet-challenge-main/CountriesChallenge/ViewControllers/CountriesViewController.swift:188-192 | a country is kept iff it matches, as many times as it occurs |
| `ViewController.FilterIsSubsequence` | ios-sdet-challenge-main/CountriesChallenge/ViewControllers/CountriesViewController.swift:188 | the filtered list is an order-preserving subsequence of the full list |
| `ViewController.FilterIdempotent` | ios-sdet-challenge-main/CountriesChallenge/ViewControllers/CountriesViewController.swift:188 | filtering the filtered list again with the same text changes nothing |
| `ViewController.GerKeepsOnlyGermany` | ios-sdet-challenge-main/CountriesChallengeTests/CountriesChallengeTests.swift:288-322 | [Germany/Berlin, France/Paris] filtered by "Ger" is [Germany] |
| `ViewController.CountriesViewController.constructor` | ios-sdet-challenge-main/CountriesChallenge/ViewControllers/CountriesViewController.swift:64-72 | no filtered countries yet, search bar empty and inactive, first scope |
| `ViewController.CountriesViewController.IsSearchBarEmpty` | ios-sdet-challenge-main/CountriesChallenge/ViewControllers/CountriesViewController.swift:51-53 | the search bar is empty exactly when it has no text or its text is "" |
| `ViewController.CountriesViewController.IsFiltering` | ios-sdet-challenge-main/CountriesChallenge/ViewControllers/CountriesViewController.swift:55-58 | filtering exactly when the search is active and the bar holds non-empty text or a scope other than 0 is chosen |
| `ViewController.CountriesViewController.Displayed` | ios-sdet-challenge-main/CountriesChallenge/ViewControllers/CountriesViewController.swift:60-62 | the table shows the filtered list while filtering and the view model's full list otherwise |
| `ViewController.CountriesViewController.NumberOfRows` | ios-sdet-challenge-main/CountriesChallenge/ViewControllers/CountriesViewController.swift:156-158 | the row count is the displayed list's length |
| `ViewController.CountriesViewController.CountryAt` | ios-sdet-challenge-main/CountriesChallenge/ViewControllers/CountriesViewController.swift:177 | row r below the row count shows and selects the displayed list's element r |
| `ViewController.CountriesViewController.UpdateSearchResults` | ios-sdet-challenge-main/CountriesChallenge/ViewControllers/CountriesViewController.swift:185-195 | nil text leaves the filtered list unchanged; otherwise it is rebuilt from the view model's full list, never from the previous filtered list |
| `ViewController.CountriesViewController.PerformSearch` | ios-sdet-challenge-main/CountriesChallenge/ViewControllers/CountriesViewController.swift:209-212 | the search bar holds the text and the filtered list is the full list filtered by it |
| `ViewController.DisplayedListRule` | ios-sdet-challenge-main/CountriesChallenge/ViewControllers/CountriesViewController.swift:51-62 | the displayed list is the filtered list exactly when the search is active and there is text or a scope other than 0; otherwise the full list |
| `ViewController.FilteredRowsMatch` | ios-sdet-challenge-main/CountriesChallenge/ViewControllers/CountriesViewController.swift:51-62 | while filtering with up-to-date results, every row is a country of the full list that matches, and there are no more rows than countries |
| `ViewController.SearchFilteringScenario` | ios-sdet-challenge-main/CountriesChallengeTests/CountriesChallengeTests.swift:288-322 | after publishing [Germany, France] and searching "Ger", the filtered list is [Germany]; the table shows 2 rows while the search is inactive, 1 once it is active |

## Left out

- `ViewController.Lowercased`: models ASCII case mapping only. Swift's `lowercased()` uses full Unicode
  case mapping, which can also change a string's length.
- `ViewController.Contains`: compares Unicode scalars one by one. Swift's `String.contains` compares
  grapheme clusters under canonical equivalence, so a precomposed and a decomposed accent match there
  and not here. Its contract also says an empty needle is always contained; the source never asks that,
  because the empty-search-bar test at `CountriesViewController.swift:189` short-circuits first, and
  Foundation may answer differently there.
- JSON decoding: `JSONDecoder` is a parameter of type bytes → decoded list or decoder error. The field
  layout of the document and the decoder's rules are not modelled.
- URL parsing and the network: `URL(string:)` is a predicate parameter, and `URLSession.shared` is a
  function from URL string to outcome. The `URLResponse` is dropped, because the service ignores it.
- Launch arguments: `ProcessInfo` arguments are an explicit parameter. `-uitesting` and the
  `UserDefaults` reset in `AppDelegate.swift` are not modelled; that is app bootstrapping and I/O.
- The text of a wrapped error: the underlying error's description comes from Foundation, and is the
  parameter `describe`. Foreign errors (such as `URLError`) are known only by an opaque identity.
- Concurrency: `Task`, `[weak self]`, `DispatchQueue.main.async` and Combine delivery are not modelled.
  Each finished refresh is applied as one sequential event (`CompleteRefresh`), in completion order. The
  case of a view model that is released before its refresh finishes, where nothing is sent, is not modelled.
- Subscribers: `setupSubscribers` (stop the activity indicator, reload the table, show the error alert)
  is UIKit presentation. A subject's `sent` log stands for what its subscribers receive.
- UIKit layout and presentation: view construction, Auto Layout, cell dequeueing and configuration,
  alerts, navigation, `viewDidLoad` and pull-to-refresh are not modelled. The search bar's text, scope
  index and active flag are fields that UIKit writes. The constructor assumes that UIKit starts them as
  no text, scope 0 and inactive.
- `CountryDetailViewController.swift` and the UI and launch test files are not modelled. They hold
  label setup and app-driving test code, with no data-path logic.
- The unit test `testCountriesService_SuccessfulFetch` uses the real network and is not modelled.
