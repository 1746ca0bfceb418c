/**
  * Direct parse with the native parser checked against BAML on the same input:
  * the caller can never tell that the bridge is there.
  */
module DirectParse {
  import opened Common

  /** What an implementation of a parse method gives: a value and its JSON form if it has one, or an error. */
  datatype BamlResult = Parsed(json: Option<string>) | Rejected(err: string)

  /** An implementation reads the adapter's de-BAML flag before the raw text. */
  type Impl = (bool, string) -> BamlResult

  datatype Method = Method(impl: Impl, streamImpl: Option<Impl>)

  /** The native parser's answer: JSON text, outside its cut-line, or a claimed failure. */
  datatype NativeAnswer = Flat(json: string) | Unsupported | Claimed(err: string)

  datatype Options = Options(applyError: Option<string>, outputSchema: Option<string>)

  datatype Input = Input(raw: string, stream: bool, options: Option<Options>)

  datatype Failure =
    | NotFound | BadInput | MissingRaw | OptionsFailed(why: string) | NoStreamParse
    | BamlError(err: string, code: Option<string>) | MarshalFailed

  datatype Engine = Native | Baml

  datatype Reason =
    | Agreement | NativeUnsupported | NativeErrorBamlOk | NativeResultUnusable | ResultDrift
    | BothError | NativeOkBamlError | BamlResultUnusable

  datatype Disposition = Disposition(engine: Engine, reason: Reason)

  const DYNAMIC_METHOD := "Baml_Rest_Dynamic"

  /** A worker's set-up: its methods, the umbrella flag, the injected parser and encoder, and BAML's error codes. */
  datatype Setup = Setup(methods: map<string, Method>, enabled: bool, native: Option<(string, string) -> NativeAnswer>,
                         encode: string -> Option<string>, classify: string -> Option<string>)

  // ---------------------------------------------------------------- without the bridge

  function Finish(setup: Setup, result: BamlResult): Result<string, Failure> {
    match result
    case Rejected(err) => Err(BamlError(err, setup.classify(err)))
    case Parsed(None) => Err(MarshalFailed)
    case Parsed(Some(data)) => Ok(data)
  }

  /** What a request must pass before any parser runs: the implementation to call, or the refusal. */
  function Admit(setup: Setup, name: string, input: Option<Input>): Result<Impl, Failure> {
    if name !in setup.methods then Err(NotFound)
    else if input.None? then Err(BadInput)
    else if input.value.raw == "" then Err(MissingRaw)
    else if input.value.options.Some? && input.value.options.value.applyError.Some? then
      Err(OptionsFailed(input.value.options.value.applyError.value))
    else if !input.value.stream then Ok(setup.methods[name].impl)
    else if setup.methods[name].streamImpl.None? then Err(NoStreamParse)
    else Ok(setup.methods[name].streamImpl.value)
  }

  /** Parse on a worker without the bridge whose adapter has the given flag. */
  function Plain(setup: Setup, name: string, input: Option<Input>, flag: bool): Result<string, Failure> {
    match Admit(setup, name, input)
    case Err(e) => Err(e)
    case Ok(impl) => if input.None? then Err(BadInput) else Finish(setup, impl(flag, input.value.raw))
  }

  /** Nothing is wrong with the request. */
  predicate IsSound(setup: Setup, name: string, input: Option<Input>) {
    && name in setup.methods && input.Some? && input.value.raw != ""
    && (input.value.options.Some? ==> input.value.options.value.applyError.None?)
    && (input.value.stream ==> setup.methods[name].streamImpl.Some?)
  }

  /** A request with something wrong is refused for the first thing that is. */
  lemma RefusedFor(setup: Setup, name: string, input: Option<Input>, flag: bool)
    ensures var r := Plain(setup, name, input, flag);
            && (IsSound(setup, name, input) <==> r.Ok? || r.error.BamlError? || r.error.MarshalFailed?)
            && (r == Err(NotFound) <==> name !in setup.methods)
            && (r == Err(BadInput) <==> name in setup.methods && input.None?)
            && (r == Err(MissingRaw) <==> name in setup.methods && input.Some? && input.value.raw == "")
            && (r.Err? && r.error.OptionsFailed? ==>
                  input.Some? && input.value.options.Some?
                  && input.value.options.value.applyError == Some(r.error.why))
            && (r == Err(NoStreamParse) ==>
                  name in setup.methods && input.Some? && input.value.stream && setup.methods[name].streamImpl.None?)
  {
  }

  /** What a sound request runs: the method's stream implementation for a stream request, else its plain one. */
  function Ran(setup: Setup, name: string, input: Option<Input>, flag: bool): BamlResult
    requires IsSound(setup, name, input)
  {
    if input.value.stream
    then setup.methods[name].streamImpl.value(flag, input.value.raw)
    else setup.methods[name].impl(flag, input.value.raw)
  }

  /** A sound request gets the answer of what it runs. */
  lemma AnsweredBy(setup: Setup, name: string, input: Option<Input>, flag: bool)
    requires IsSound(setup, name, input)
    ensures var r := Plain(setup, name, input, flag);
            match Ran(setup, name, input, flag)
            case Rejected(err) => r == Err(BamlError(err, setup.classify(err)))
            case Parsed(None) => r == Err(MarshalFailed)
            case Parsed(Some(json)) => r == Ok(json)
  {
    assert Admit(setup, name, input).value(flag, input.value.raw) == Ran(setup, name, input, flag);
  }

  /** The requests the bridge takes. */
  predicate Eligible(setup: Setup, name: string, input: Input) {
    && setup.enabled && setup.native.Some? && !input.stream && name == DYNAMIC_METHOD
    && input.options.Some? && input.options.value.outputSchema.Some?
  }

  // ---------------------------------------------------------------- the bridge

  /**
    * The disposition as a table: what the native leg ended in, an error, a payload or neither, against
    * BAML's result.
    */
  function Verdict(err: Option<NativeAnswer>, data: Option<string>, baml: BamlResult): Disposition {
    if baml == Parsed(None) then Disposition(Baml, BamlResultUnusable)
    else if err == Some(Unsupported) then Disposition(Baml, NativeUnsupported)
    else if err.Some? then Disposition(Baml, if baml.Parsed? then NativeErrorBamlOk else BothError)
    else if data.None? then Disposition(Baml, NativeResultUnusable)
    else if baml.Rejected? then Disposition(Baml, NativeOkBamlError)
    else if data == baml.json then Disposition(Native, Agreement)
    else Disposition(Baml, ResultDrift)
  }

  /** When each reason is given. */
  lemma ReasonsMean(err: Option<NativeAnswer>, data: Option<string>, baml: BamlResult)
    ensures var why := Verdict(err, data, baml).reason;
            && (why.Agreement? <==> err.None? && data.Some? && baml == Parsed(data))
            && (why.ResultDrift? <==>
                err.None? && data.Some? && baml.Parsed? && baml.json.Some? && baml.json.value != data.value)
            && (why.BamlResultUnusable? <==> baml == Parsed(None))
            && (why.NativeUnsupported? <==> err == Some(Unsupported) && baml != Parsed(None))
            && (why.NativeErrorBamlOk? <==>
                err.Some? && !err.value.Unsupported? && baml.Parsed? && baml.json.Some?)
            && (why.BothError? <==> err.Some? && !err.value.Unsupported? && baml.Rejected?)
            && (why.NativeResultUnusable? <==> err.None? && data.None? && baml != Parsed(None))
            && (why.NativeOkBamlError? <==> err.None? && data.Some? && baml.Rejected?)
  {
  }

  /** One request's native leg. */
  class NativeLeg {
    var data: Option<string>
    var err: Option<NativeAnswer>
    var unusable: bool

    /** Exactly one of the three: a payload, an error, or an unusable success. */
    ghost predicate Valid() reads this {
      && (err.Some? ==> !err.value.Flat? && data.None? && !unusable)
      && (unusable ==> data.None?)
      && (err.None? && !unusable ==> data.Some?)
    }

    /** beginNativeDirectParse: the parser runs before BAML does. */
    constructor (setup: Setup, raw: string, schema: string)
      requires setup.native.Some?
      ensures Valid()
      ensures err.Some? <==> !setup.native.value(raw, schema).Flat?
      ensures err.Some? ==> err.value == setup.native.value(raw, schema)
      ensures setup.native.value(raw, schema).Flat? ==>
                data == setup.encode(setup.native.value(raw, schema).json) && unusable == data.None?
    {
      var answer := setup.native.value(raw, schema);
      match answer {
        case Flat(json) => err := None; data := setup.encode(json); unusable := setup.encode(json).None?;
        case _ => err := Some(answer); data := None; unusable := false;
      }
    }

    method Settle(bamlData: string) returns (verdict: Disposition, served: Option<string>)
      requires Valid()
      ensures served.Some? <==> data == Some(bamlData)
      ensures served.Some? ==> served.value == bamlData
      ensures verdict.engine.Native? <==> data == Some(bamlData)
      ensures verdict == Verdict(err, data, Parsed(Some(bamlData)))
    {
      served := None;
      if err.Some? {
        verdict := Disposition(Baml, if err.value.Unsupported? then NativeUnsupported else NativeErrorBamlOk);
      } else if unusable {
        verdict := Disposition(Baml, NativeResultUnusable);
      } else if data.value == bamlData {
        verdict, served := Disposition(Native, Agreement), data;
      } else {
        verdict := Disposition(Baml, ResultDrift);
      }
    }

    method SettleBamlError(reason: string) returns (verdict: Disposition)
      requires Valid()
      ensures verdict == Verdict(err, data, Rejected(reason)) && verdict.engine.Baml?
    {
      if err.Some? {
        verdict := Disposition(Baml, if err.value.Unsupported? then NativeUnsupported else BothError);
      } else if unusable {
        verdict := Disposition(Baml, NativeResultUnusable);
      } else {
        verdict := Disposition(Baml, NativeOkBamlError);
      }
    }
  }

  class Handler {
    const setup: Setup
    /** The direct-parse counter, in order. */
    var recorded: seq<Disposition>

    constructor (s: Setup)
      ensures setup == s && recorded == []
    {
      setup, recorded := s, [];
    }

    /**
      * Parse: with the bridge the answer is the one a worker without it and with
      * the flag off gives; off the bridge the adapter keeps its flag.
      */
    method Parse(name: string, input: Option<Input>) returns (r: Result<string, Failure>)
      modifies this`recorded
      ensures r == Plain(setup, name, input, setup.enabled && !(input.Some? && Eligible(setup, name, input.value)))
      ensures Admit(setup, name, input).Ok? && Eligible(setup, name, input.value) ==>
                var baml := Admit(setup, name, input).value(false, input.value.raw);
                && recorded == old(recorded)
                               + [Verdict(NativeError(setup, input.value), NativePayload(setup, input.value), baml)]
                && (recorded[|recorded| - 1].engine.Native? <==>
                    r.Ok? && NativePayload(setup, input.value) == Some(r.value))
      ensures !(Admit(setup, name, input).Ok? && Eligible(setup, name, input.value)) ==> recorded == old(recorded)
    {
      if name !in setup.methods { return Err(NotFound); }
      if input.None? { return Err(BadInput); }
      var request := input.value;
      if request.raw == "" { return Err(MissingRaw); }
      var flag := setup.enabled;
      if request.options.Some? && request.options.value.applyError.Some? {
        return Err(OptionsFailed(request.options.value.applyError.value));
      }
      var impl := setup.methods[name].impl;
      if request.stream {
        if setup.methods[name].streamImpl.None? { return Err(NoStreamParse); }
        impl := setup.methods[name].streamImpl.value;
      }
      var native: NativeLeg? := null;
      if Eligible(setup, name, request) {
        native := new NativeLeg(setup, request.raw, request.options.value.outputSchema.value);
        flag := false;
      }
      match impl(flag, request.raw)
      case Rejected(err) =>
        if native != null {
          var verdict := native.SettleBamlError(err);
          recorded := recorded + [verdict];
        }
        r := Err(BamlError(err, setup.classify(err)));
      case Parsed(None) =>
        if native != null { recorded := recorded + [Disposition(Baml, BamlResultUnusable)]; }
        r := Err(MarshalFailed);
      case Parsed(Some(data)) =>
        r := Ok(data);
        if native != null {
          var verdict, served := native.Settle(data);
          recorded := recorded + [verdict];
          if served.Some? { r := Ok(served.value); }
        }
    }
  }

  /** What the native parser answers to an eligible request when it is no JSON. */
  function NativeError(setup: Setup, input: Input): Option<NativeAnswer> {
    if setup.native.Some? && input.options.Some? && input.options.value.outputSchema.Some? then
      var answer := setup.native.value(input.raw, input.options.value.outputSchema.value);
      if answer.Flat? then None else Some(answer)
    else None
  }

  /** The bytes native would return for an eligible request. */
  function NativePayload(setup: Setup, input: Input): Option<string> {
    if setup.native.Some? && input.options.Some? && input.options.value.outputSchema.Some? then
      match setup.native.value(input.raw, input.options.value.outputSchema.value)
      case Flat(json) => setup.encode(json)
      case _ => None
    else None
  }
}
