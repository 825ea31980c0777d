/**
 * An abstract CloudFront Functions service standing in for the SDK client
 * (conn.CreateFunctionWithContext and the other calls function.go makes,
 * and FindFunctionByNameAndStage). Each function has a DEVELOPMENT stage
 * and, once published, a LIVE stage; every stage carries an ETag, and every
 * mutating call is checked against the ETag it is given as IfMatch.
 */
module Remote {
  import opened Wrappers
  import opened Associations

  /** The error kinds the handlers distinguish; AlreadyExists, throttling and faults are Other. */
  datatype ErrorKind = NotFound | Conflict | Other

  datatype Result<T> = Ok(value: T) | Err(kind: ErrorKind)

  datatype Stage = Development | Live

  /** FunctionConfig as sent and returned by the API. */
  datatype FunctionConfig = FunctionConfig(comment: string, runtime: string,
                                           keyValueStoreAssociations: Option<KeyValueStoreAssociations>)

  /** What one stage of a function holds. */
  datatype StageContent = StageContent(config: FunctionConfig, code: string, etag: string)

  /** One function held by the service. */
  datatype RemoteFunction = RemoteFunction(arn: string, status: string,
                                           development: StageContent, live: Option<StageContent>)

  /** DescribeFunction output: the function summary of one stage and that stage's ETag. */
  datatype FunctionDescription = FunctionDescription(name: string, arn: string, status: string,
                                                     config: FunctionConfig, etag: string)

  /** CreateFunction output: the created summary's name and the new DEVELOPMENT ETag. */
  datatype FunctionCreated = FunctionCreated(name: string, etag: string)

  /** The API operations, used to say which of them are failing. */
  datatype Api = CreateFunctionApi | DescribeFunctionApi(stage: Stage) | GetFunctionApi(stage: Stage)
               | UpdateFunctionApi | PublishFunctionApi | DeleteFunctionApi

  /** One request as the service received it. */
  datatype Call =
    | CreateFunctionCall(name: string, code: string, config: FunctionConfig)
    | DescribeFunctionCall(name: string, stage: Stage)
    | GetFunctionCall(name: string, stage: Stage)
    | UpdateFunctionCall(name: string, ifMatch: string, code: string, config: FunctionConfig)
    | PublishFunctionCall(name: string, ifMatch: string)
    | DeleteFunctionCall(name: string, ifMatch: string)

  /** The lifecycle of one name: absent, development stage only, or also published. */
  datatype Lifecycle = Absent | DraftOnly | DraftAndPublished

  /** The status the service gives a newly created function. */
  const UnpublishedStatus := "UNPUBLISHED"

  function DigitChar(d: nat): char
    requires d < 10
  {
    ('0' as int + d) as char
  }

  function Digits(n: nat): string
    decreases n
  {
    if n < 10 then [DigitChar(n)] else Digits(n / 10) + [DigitChar(n % 10)]
  }

  /** The ETag the service issues for its version-th write; never the empty string. */
  function EtagFor(version: nat): (etag: string)
    ensures |etag| > 0
  {
    "E" + Digits(version)
  }

  lemma {:induction false} DigitsLong(n: nat)
    requires n >= 10
    ensures |Digits(n)| >= 2
  {
    if n / 10 >= 10 {
      DigitsLong(n / 10);
    }
  }

  /** Distinct numbers have distinct decimal representations. */
  lemma {:induction false} DigitsInjective(n: nat, m: nat)
    requires Digits(n) == Digits(m)
    ensures n == m
    decreases n
  {
    if n < 10 && m < 10 {
      assert Digits(n)[0] == DigitChar(n) && Digits(m)[0] == DigitChar(m);
    } else if n < 10 {
      DigitsLong(m);
    } else if m < 10 {
      DigitsLong(n);
    } else {
      var s := Digits(n);
      assert s == Digits(n / 10) + [DigitChar(n % 10)];
      assert s == Digits(m / 10) + [DigitChar(m % 10)];
      assert s[|s| - 1] == DigitChar(n % 10) && s[|s| - 1] == DigitChar(m % 10);
      assert s[..|s| - 1] == Digits(n / 10) && s[..|s| - 1] == Digits(m / 10);
      DigitsInjective(n / 10, m / 10);
    }
  }

  /** The service never issues the same ETag twice. */
  lemma EtagForInjective(n: nat, m: nat)
    requires EtagFor(n) == EtagFor(m)
    ensures n == m
  {
    assert EtagFor(n)[1..] == Digits(n) && EtagFor(m)[1..] == Digits(m);
    DigitsInjective(n, m);
  }

  /** The first version ETags the service issues. */
  ghost function IssuedUpTo(version: nat): set<string>
  {
    if version == 0 then {} else IssuedUpTo(version - 1) + {EtagFor(version - 1)}
  }

  /** The version-th ETag is not among those issued before it. */
  lemma {:induction false} NotYetIssued(version: nat, k: nat)
    requires version <= k
    ensures EtagFor(k) !in IssuedUpTo(version)
  {
    if version > 0 {
      NotYetIssued(version - 1, k);
      if EtagFor(version - 1) == EtagFor(k) {
        EtagForInjective(version - 1, k);
      }
    }
  }

  /** The ETags the stages of functions[name] hold. */
  ghost function EtagsOf(functions: map<string, RemoteFunction>, name: string): set<string>
  {
    if name !in functions then {}
    else {functions[name].development.etag}
         + if functions[name].live.Some? then {functions[name].live.value.etag} else {}
  }

  /** Some stage of some function of functions holds etag. */
  ghost predicate HeldIn(functions: map<string, RemoteFunction>, etag: string)
  {
    exists n :: etag in EtagsOf(functions, n)
  }

  class FunctionStore {
    /** The prefix of every ARN the service assigns. */
    const arnPrefix: string
    /** The operations (a read operation per stage) that currently fail with a service fault. */
    const faults: set<Api>
    var functions: map<string, RemoteFunction>
    /** How many ETags have been issued. */
    var version: nat
    /** Every request received, oldest first. */
    var log: seq<Call>

    constructor (arnPrefix: string, faults: set<Api>)
      ensures this.arnPrefix == arnPrefix && this.faults == faults
      ensures functions == map[] && version == 0 && log == []
      ensures Valid()
    {
      this.arnPrefix := arnPrefix;
      this.faults := faults;
      functions := map[];
      version := 0;
      log := [];
    }

    /** Every ETag held, in either stage, is one the service has already issued. */
    ghost predicate Valid()
      reads this`functions, this`version
    {
      forall n :: EtagsOf(functions, n) <= IssuedUpTo(version)
    }

    /** The next ETag the service issues is held by no stage. */
    lemma NextEtagIsFresh()
      requires Valid()
      ensures !HeldIn(functions, EtagFor(version))
    {
      NotYetIssued(version, version);
    }

    function StateOf(name: string): Lifecycle
      reads this`functions
    {
      if name !in functions then Absent
      else if functions[name].live.None? then DraftOnly
      else DraftAndPublished
    }

    function StageOf(name: string, stage: Stage): Option<StageContent>
      reads this`functions
    {
      if name !in functions then None
      else if stage == Development then Some(functions[name].development)
      else functions[name].live
    }

    /** The answer to DescribeFunction; a missing name or stage is NotFound. */
    function DescribeResult(name: string, stage: Stage): Result<FunctionDescription>
      reads this`functions
    {
      if DescribeFunctionApi(stage) in faults then Err(Other)
      else match StageOf(name, stage)
        case None => Err(NotFound)
        case Some(s) => Ok(FunctionDescription(name, functions[name].arn, functions[name].status, s.config, s.etag))
    }

    /** The answer to GetFunction: the code of one stage. */
    function CodeResult(name: string, stage: Stage): Result<string>
      reads this`functions
    {
      if GetFunctionApi(stage) in faults then Err(Other)
      else match StageOf(name, stage)
        case None => Err(NotFound)
        case Some(s) => Ok(s.code)
    }

    /** The answer to CreateFunction; an existing name is refused. */
    function CreateResult(name: string): Result<FunctionCreated>
      reads this`functions, this`version
    {
      if CreateFunctionApi in faults || name in functions then Err(Other)
      else Ok(FunctionCreated(name, EtagFor(version)))
    }

    /** Why a mutating call on name with IfMatch ifMatch is refused, if it is. */
    function Refusal(api: Api, name: string, ifMatch: string): Option<ErrorKind>
      reads this`functions
    {
      if api in faults then Some(Other)
      else if name !in functions then Some(NotFound)
      else if functions[name].development.etag != ifMatch then Some(Conflict)
      else None
    }

    /** The answer to UpdateFunction: the new DEVELOPMENT ETag. */
    function UpdateResult(name: string, ifMatch: string): Result<string>
      reads this`functions, this`version
    {
      match Refusal(UpdateFunctionApi, name, ifMatch)
      case Some(k) => Err(k)
      case None => Ok(EtagFor(version))
    }

    function PublishResult(name: string, ifMatch: string): Result<()>
      reads this`functions
    {
      match Refusal(PublishFunctionApi, name, ifMatch)
      case Some(k) => Err(k)
      case None => Ok(())
    }

    function DeleteResult(name: string, ifMatch: string): Result<()>
      reads this`functions
    {
      match Refusal(DeleteFunctionApi, name, ifMatch)
      case Some(k) => Err(k)
      case None => Ok(())
    }

    method CreateFunction(name: string, code: string, config: FunctionConfig) returns (r: Result<FunctionCreated>)
      requires Valid()
      modifies this`functions, this`version, this`log
      ensures log == old(log) + [CreateFunctionCall(name, code, config)]
      ensures r == old(CreateResult(name))
      ensures r.Err? ==> functions == old(functions) && version == old(version)
      ensures r.Ok? ==> r.value.name == name && version == old(version) + 1
      ensures r.Ok? ==> !HeldIn(old(functions), r.value.etag)
      ensures r.Ok? ==> functions == old(functions)[name := RemoteFunction(arnPrefix + name, UnpublishedStatus,
                                                                       StageContent(config, code, r.value.etag), None)]
      ensures Valid()
    {
      NextEtagIsFresh();
      log := log + [CreateFunctionCall(name, code, config)];
      r := CreateResult(name);
      if r.Ok? {
        functions := functions[name := RemoteFunction(arnPrefix + name, UnpublishedStatus,
                                                      StageContent(config, code, r.value.etag), None)];
        version := version + 1;
      }
      forall n
        ensures EtagsOf(functions, n) <= IssuedUpTo(version)
      {
        assert EtagsOf(old(functions), n) <= IssuedUpTo(old(version));
      }
    }

    method DescribeFunction(name: string, stage: Stage) returns (r: Result<FunctionDescription>)
      modifies this`log
      ensures log == old(log) + [DescribeFunctionCall(name, stage)]
      ensures r == DescribeResult(name, stage)
    {
      log := log + [DescribeFunctionCall(name, stage)];
      r := DescribeResult(name, stage);
    }

    method GetFunction(name: string, stage: Stage) returns (r: Result<string>)
      modifies this`log
      ensures log == old(log) + [GetFunctionCall(name, stage)]
      ensures r == CodeResult(name, stage)
    {
      log := log + [GetFunctionCall(name, stage)];
      r := CodeResult(name, stage);
    }

    /** A refused update, a stale ETag included, leaves the service's functions as they were. */
    method UpdateFunction(name: string, ifMatch: string, code: string, config: FunctionConfig) returns (r: Result<string>)
      requires Valid()
      modifies this`functions, this`version, this`log
      ensures log == old(log) + [UpdateFunctionCall(name, ifMatch, code, config)]
      ensures r == old(UpdateResult(name, ifMatch))
      ensures r.Err? ==> functions == old(functions) && version == old(version)
      ensures r.Ok? ==> name in old(functions) && version == old(version) + 1
      ensures r.Ok? ==> !HeldIn(old(functions), r.value) && r.value != ifMatch
      ensures r.Ok? ==> functions == old(functions)[name := old(functions)[name].(development := StageContent(config, code, r.value))]
      ensures Valid()
    {
      NextEtagIsFresh();
      log := log + [UpdateFunctionCall(name, ifMatch, code, config)];
      r := UpdateResult(name, ifMatch);
      if r.Ok? {
        assert ifMatch in EtagsOf(old(functions), name);
        functions := functions[name := functions[name].(development := StageContent(config, code, r.value))];
        version := version + 1;
      }
      forall n
        ensures EtagsOf(functions, n) <= IssuedUpTo(version)
      {
        assert EtagsOf(old(functions), n) <= IssuedUpTo(old(version));
      }
    }

    /** Publishing copies the DEVELOPMENT stage, ETag included, to the LIVE stage. */
    method PublishFunction(name: string, ifMatch: string) returns (r: Result<()>)
      requires Valid()
      modifies this`functions, this`log
      ensures log == old(log) + [PublishFunctionCall(name, ifMatch)]
      ensures r == old(PublishResult(name, ifMatch))
      ensures r.Err? ==> functions == old(functions)
      ensures r.Ok? ==> name in old(functions) && old(functions)[name].development.etag == ifMatch
      ensures r.Ok? ==> functions == old(functions)[name := old(functions)[name].(live := Some(old(functions)[name].development))]
      ensures Valid()
    {
      log := log + [PublishFunctionCall(name, ifMatch)];
      r := PublishResult(name, ifMatch);
      if r.Ok? {
        functions := functions[name := functions[name].(live := Some(functions[name].development))];
      }
      forall n
        ensures EtagsOf(functions, n) <= IssuedUpTo(version)
      {
        assert EtagsOf(old(functions), n) <= IssuedUpTo(old(version));
      }
    }

    method DeleteFunction(name: string, ifMatch: string) returns (r: Result<()>)
      requires Valid()
      modifies this`functions, this`log
      ensures log == old(log) + [DeleteFunctionCall(name, ifMatch)]
      ensures r == old(DeleteResult(name, ifMatch))
      ensures r.Err? ==> functions == old(functions)
      ensures r.Ok? ==> functions == old(functions) - {name}
      ensures Valid()
    {
      log := log + [DeleteFunctionCall(name, ifMatch)];
      r := DeleteResult(name, ifMatch);
      if r.Ok? {
        functions := functions - {name};
      }
      forall n
        ensures EtagsOf(functions, n) <= IssuedUpTo(version)
      {
        assert EtagsOf(old(functions), n) <= IssuedUpTo(old(version));
      }
    }
  }
}
