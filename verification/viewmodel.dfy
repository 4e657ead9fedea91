/** `CountriesViewModel`: the two published values and the refresh that writes them. */
module ViewModel {
  import opened Wrappers
  import opened Countries
  import opened Service

  /** Combine's `CurrentValueSubject`: a current value, plus the values sent since it was
      created, which is what a subscriber that drops the initial value receives. */
  class CurrentValueSubject<T> {
    var value: T
    var sent: seq<T>

    constructor (initial: T)
      ensures value == initial && sent == []
    {
      value := initial;
      sent := [];
    }

    /** `send`: replace the current value and notify (even when the value is unchanged). */
    method Send(v: T)
      modifies this
      ensures value == v && sent == old(sent) + [v]
    {
      value := v;
      sent := sent + [v];
    }
  }

  /** The two current values: `countriesSubject.value` and `errorSubject.value`. */
  datatype Published = Published(countries: seq<Country>, error: Option<Error>)

  /** The values a view model starts with. */
  const Initial: Published := Published([], None)

  /** What one finished refresh does to the published values. */
  function Complete(p: Published, outcome: Result<seq<Country>, Error>): (q: Published)
    // a success replaces the list wholesale and leaves the error alone (a stale error stays)
    ensures outcome.Success? ==> q.countries == outcome.value && q.error == p.error
    // a failure replaces the error and leaves the list alone
    ensures outcome.Failure? ==> q.error == Some(outcome.error) && q.countries == p.countries
  {
    match outcome
    case Success(countries) => p.(countries := countries)
    case Failure(e) => p.(error := Some(e))
  }

  /** Refreshes finishing one after the other, in completion order. */
  function CompleteAll(p: Published, outcomes: seq<Result<seq<Country>, Error>>): (q: Published)
    // refreshes that all failed leave the list as it was
    ensures (forall i :: 0 <= i < |outcomes| ==> outcomes[i].Failure?) ==> q.countries == p.countries
    // refreshes that all succeeded leave the error as it was
    ensures (forall i :: 0 <= i < |outcomes| ==> outcomes[i].Success?) ==> q.error == p.error
    decreases |outcomes|
  {
    if outcomes == [] then p else CompleteAll(Complete(p, outcomes[0]), outcomes[1..])
  }

  /** The list of the last success among `outcomes`, if there is one. */
  function LastSuccess(outcomes: seq<Result<seq<Country>, Error>>): (last: Option<seq<Country>>)
    ensures last.Some? <==> exists i :: 0 <= i < |outcomes| && outcomes[i].Success?
  {
    if outcomes == [] then None
    else if outcomes[|outcomes| - 1].Success? then Some(outcomes[|outcomes| - 1].value)
    else LastSuccess(outcomes[..|outcomes| - 1])
  }

  /** The error of the last failure among `outcomes`, if there is one. */
  function LastFailure(outcomes: seq<Result<seq<Country>, Error>>): (last: Option<Error>)
    ensures last.Some? <==> exists i :: 0 <= i < |outcomes| && outcomes[i].Failure?
  {
    if outcomes == [] then None
    else if outcomes[|outcomes| - 1].Failure? then Some(outcomes[|outcomes| - 1].error)
    else LastFailure(outcomes[..|outcomes| - 1])
  }

  lemma {:induction false} LastSuccessCons(o: Result<seq<Country>, Error>, rest: seq<Result<seq<Country>, Error>>)
    ensures LastSuccess([o] + rest) == if LastSuccess(rest).Some? then LastSuccess(rest)
                                       else if o.Success? then Some(o.value) else None
    decreases |rest|
  {
    if rest != [] {
      assert ([o] + rest)[..|[o] + rest| - 1] == [o] + rest[..|rest| - 1];
      LastSuccessCons(o, rest[..|rest| - 1]);
    }
  }

  lemma {:induction false} LastFailureCons(o: Result<seq<Country>, Error>, rest: seq<Result<seq<Country>, Error>>)
    ensures LastFailure([o] + rest) == if LastFailure(rest).Some? then LastFailure(rest)
                                       else if o.Failure? then Some(o.error) else None
    decreases |rest|
  {
    if rest != [] {
      assert ([o] + rest)[..|[o] + rest| - 1] == [o] + rest[..|rest| - 1];
      LastFailureCons(o, rest[..|rest| - 1]);
    }
  }

  /** Last write wins, by completion order: after any sequence of finished refreshes,
      the list is the last success's list (or the earlier list if none succeeded), and
      the error is the last failure's error (or the earlier error if none failed). */
  lemma {:induction false} LastWriteWins(p: Published, outcomes: seq<Result<seq<Country>, Error>>)
    ensures CompleteAll(p, outcomes).countries == LastSuccess(outcomes).GetOr(p.countries)
    ensures CompleteAll(p, outcomes).error == if LastFailure(outcomes).Some? then LastFailure(outcomes) else p.error
    decreases |outcomes|
  {
    if outcomes != [] {
      LastWriteWins(Complete(p, outcomes[0]), outcomes[1..]);
      assert outcomes == [outcomes[0]] + outcomes[1..];
      LastSuccessCons(outcomes[0], outcomes[1..]);
      LastFailureCons(outcomes[0], outcomes[1..]);
    }
  }

  /** From a fresh view model: the list is the last success's or [], the error the
      last failure's or absent. */
  lemma FromInitial(outcomes: seq<Result<seq<Country>, Error>>)
    ensures CompleteAll(Initial, outcomes) == Published(LastSuccess(outcomes).GetOr([]), LastFailure(outcomes))
  {
    LastWriteWins(Initial, outcomes);
  }

  /** A success after a failure does not clear the stale error, and two overlapping
      refreshes are settled by which one finishes last, not which one started first. */
  lemma StaleErrorAndCompletionOrder(e: Error, first: seq<Country>, second: seq<Country>)
    ensures CompleteAll(Initial, [Failure(e), Success(first)]) == Published(first, Some(e))
    ensures CompleteAll(Initial, [Success(second), Success(first)]).countries == first
  {
    var failed := Complete(Initial, Failure(e));
    var last: seq<Result<seq<Country>, Error>> := [Success(first)];
    assert last[1..] == [];
    assert CompleteAll(failed, last) == Complete(failed, Success(first));
    assert [Failure(e), Success(first)][1..] == last;
    var succeeded := Complete(Initial, Success(second));
    assert CompleteAll(succeeded, last) == Complete(succeeded, Success(first));
    assert [Success(second), Success(first)][1..] == last;
  }

  /** The `CountriesServiceProtocol` a view model is given: the app's `CountriesService`,
      or the unit tests' `MockCountriesService`, which answers `mockCountries` when
      `shouldSucceed` and throws `invalidData` otherwise. */
  datatype CountriesServiceProtocol =
    | Live(service: CountriesService)
    | MockCountriesService(shouldSucceed: bool, mockCountries: seq<Country>)

  /** `fetchCountries()` on whichever service the view model holds. */
  function FetchFrom(service: CountriesServiceProtocol, env: Environment): (r: Result<seq<Country>, Error>)
    ensures service.Live? ==> r == FetchCountries(service.service, env)
    ensures service.MockCountriesService? && service.shouldSucceed ==> r == Success(service.mockCountries)
    ensures service.MockCountriesService? && !service.shouldSucceed ==> r == Failure(ServiceError(InvalidData))
  {
    match service
    case Live(svc) => FetchCountries(svc, env)
    case MockCountriesService(shouldSucceed, mockCountries) =>
      if shouldSucceed then Success(mockCountries) else Failure(ServiceError(InvalidData))
  }

  class CountriesViewModel {
    const service: CountriesServiceProtocol
    const countriesSubject: CurrentValueSubject<seq<Country>>
    const errorSubject: CurrentValueSubject<Option<Error>>

    /** The two subjects are distinct objects. */
    ghost predicate Valid()
      reads this
    {
      countriesSubject as object != errorSubject as object
    }

    /** The two current values. */
    function Current(): (p: Published)
      ensures p.countries == countriesSubject.value && p.error == errorSubject.value
      reads this, countriesSubject, errorSubject
    {
      Published(countriesSubject.value, errorSubject.value)
    }

    /** `init(service:)`: the list starts empty and the error absent. */
    constructor (service: CountriesServiceProtocol)
      ensures Valid() && this.service == service
      ensures Current() == Initial
      ensures countriesSubject.sent == [] && errorSubject.sent == []
      ensures fresh(countriesSubject) && fresh(errorSubject)
    {
      this.service := service;
      countriesSubject := new CurrentValueSubject([]);
      errorSubject := new CurrentValueSubject(None);
    }

    /** `init()` with the default argument: the app's own `CountriesService()`. */
    constructor Default()
      ensures Valid() && service == Live(DefaultService)
      ensures Current() == Initial
      ensures countriesSubject.sent == [] && errorSubject.sent == []
      ensures fresh(countriesSubject) && fresh(errorSubject)
    {
      service := Live(DefaultService);
      countriesSubject := new CurrentValueSubject([]);
      errorSubject := new CurrentValueSubject(None);
    }

    /** The main-queue block that runs when a refresh's fetch finishes: it sends to
        exactly one of the two subjects. */
    method CompleteRefresh(outcome: Result<seq<Country>, Error>)
      requires Valid()
      modifies countriesSubject, errorSubject
      ensures Valid()
      ensures Current() == Complete(old(Current()), outcome)
      ensures outcome.Success? ==> countriesSubject.sent == old(countriesSubject.sent) + [outcome.value]
                                   && errorSubject.sent == old(errorSubject.sent)
      ensures outcome.Failure? ==> errorSubject.sent == old(errorSubject.sent) + [Some(outcome.error)]
                                   && countriesSubject.sent == old(countriesSubject.sent)
      ensures |countriesSubject.sent| + |errorSubject.sent| == old(|countriesSubject.sent| + |errorSubject.sent|) + 1
    {
      match outcome
      case Success(countries) => countriesSubject.Send(countries);
      case Failure(e) => errorSubject.Send(Some(e));
    }

    /** `refreshCountries` when no other refresh overlaps it: fetch, then publish. */
    method RefreshCountries(env: Environment)
      requires Valid()
      modifies countriesSubject, errorSubject
      ensures Valid()
      ensures Current() == Complete(old(Current()), FetchFrom(service, env))
      ensures FetchFrom(service, env).Success? ==>
                countriesSubject.sent == old(countriesSubject.sent) + [FetchFrom(service, env).value]
                && errorSubject.sent == old(errorSubject.sent)
      ensures FetchFrom(service, env).Failure? ==>
                errorSubject.sent == old(errorSubject.sent) + [Some(FetchFrom(service, env).error)]
                && countriesSubject.sent == old(countriesSubject.sent)
      ensures |countriesSubject.sent| + |errorSubject.sent| == old(|countriesSubject.sent| + |errorSubject.sent|) + 1
    {
      CompleteRefresh(FetchFrom(service, env));
    }
  }

  const Germany: Country :=
    Country("Berlin", "DE", Currency("EUR", "Euro", "€"), "🇩🇪", Language("de", "German"), "Germany", "Europe")

  /** The unit tests' `MockCountriesService()`: it succeeds with [Germany]. */
  const DefaultMockService: CountriesServiceProtocol := MockCountriesService(true, [Germany])

  /** The successful-fetch unit test: a mock service answering [Germany]; returns what a
      subscriber that drops the initial value receives from the countries subject. */
  method SuccessfulFetchScenario(env: Environment) returns (received: seq<seq<Country>>)
    ensures |received| == 1 && |received[0]| == 1 && received[0][0].name == "Germany"
  {
    var viewModel := new CountriesViewModel(DefaultMockService);
    viewModel.RefreshCountries(env);
    received := viewModel.countriesSubject.sent;
  }

  /** The failed-fetch unit test: a mock service throwing invalidData; returns what a
      subscriber that drops the initial value receives from the error subject. */
  method FailedFetchScenario(env: Environment) returns (received: seq<Option<Error>>)
    ensures |received| == 1 && received[0].Some?
  {
    var viewModel := new CountriesViewModel(DefaultMockService.(shouldSucceed := false));
    viewModel.RefreshCountries(env);
    received := viewModel.errorSubject.sent;
  }
}
