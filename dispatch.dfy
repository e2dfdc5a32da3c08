/** `run_task` (app.py): the classifier names an operation, an if/elif chain
    on that name picks the executor, the JSON-decoded arguments are passed to
    it as keyword arguments without any check, and every exception becomes an
    HTTP 400 error. */
module Dispatch {
  import opened Wrappers
  import opened JsonValues
  import Catalogue

  /** The executors the chain can call, one per branch. */
  datatype Handler = A1 | A2 | A3 | A4 | A5 | A6 | A7 | A8 | A9 | A10 | B12 | B3 | B5 | B6 | B7 | B9

  /** The `task_code` a branch compares against. */
  function HandlerName(h: Handler): string {
    match h
    case A1 => "A1"
    case A2 => "A2"
    case A3 => "A3"
    case A4 => "A4"
    case A5 => "A5"
    case A6 => "A6"
    case A7 => "A7"
    case A8 => "A8"
    case A9 => "A9"
    case A10 => "A10"
    case B12 => "B12"
    case B3 => "B3"
    case B5 => "B5"
    case B6 => "B6"
    case B7 => "B7"
    case B9 => "B9"
  }

  /** The catalogue entry an executor belongs to. */
  function DescriptorOf(h: Handler): (d: Catalogue.Descriptor)
    ensures d.name == HandlerName(h)
    ensures d in Catalogue.Definitions
  {
    match h
    case A1 => Catalogue.OpA1
    case A2 => Catalogue.OpA2
    case A3 => Catalogue.OpA3
    case A4 => Catalogue.OpA4
    case A5 => Catalogue.OpA5
    case A6 => Catalogue.OpA6
    case A7 => Catalogue.OpA7
    case A8 => Catalogue.OpA8
    case A9 => Catalogue.OpA9
    case A10 => Catalogue.OpA10
    case B12 => Catalogue.OpB12
    case B3 => Catalogue.OpB3
    case B5 => Catalogue.OpB5
    case B6 => Catalogue.OpB6
    case B7 => Catalogue.OpB7
    case B9 => Catalogue.OpB9
  }

  /** The branches of the chain, in the order they are tried. */
  const Branches: seq<Handler> := [A1, A2, A3, A4, A5, A6, A7, A8, A9, A10, B12, B3, B5, B6, B7, B9]

  /** The if/elif chain: the first branch whose name equals `taskCode`, or
      `None` when the name falls through every branch. */
  function Route(taskCode: string): (r: Option<Handler>)
    ensures r.Some? ==> HandlerName(r.value) == taskCode
  {
    if taskCode == "A1" then Some(A1)
    else if taskCode == "A2" then Some(A2)
    else if taskCode == "A3" then Some(A3)
    else if taskCode == "A4" then Some(A4)
    else if taskCode == "A5" then Some(A5)
    else if taskCode == "A6" then Some(A6)
    else if taskCode == "A7" then Some(A7)
    else if taskCode == "A8" then Some(A8)
    else if taskCode == "A9" then Some(A9)
    else if taskCode == "A10" then Some(A10)
    else if taskCode == "B12" then Some(B12)
    else if taskCode == "B3" then Some(B3)
    else if taskCode == "B5" then Some(B5)
    else if taskCode == "B6" then Some(B6)
    else if taskCode == "B7" then Some(B7)
    else if taskCode == "B9" then Some(B9)
    else None
  }

  /** Every executor is reached by its own name, so no branch shadows
      another and names identify executors. */
  lemma RouteReachesEveryHandler()
    ensures forall h :: Route(HandlerName(h)) == Some(h)
    ensures forall h, g :: HandlerName(h) == HandlerName(g) ==> h == g
  {
    forall h ensures Route(HandlerName(h)) == Some(h) {
      match h
      case A1 =>
      case A2 =>
      case A3 =>
      case A4 =>
      case A5 =>
      case A6 =>
      case A7 =>
      case A8 =>
      case A9 =>
      case A10 =>
      case B12 =>
      case B3 =>
      case B5 =>
      case B6 =>
      case B7 =>
      case B9 =>
    }
  }

  /** A name has a branch exactly when it is one of the catalogue's
      operation names. */
  lemma RouteCoversNames()
    ensures forall n :: Route(n).Some? <==> n in Catalogue.OperationNames
  {
  }

  /** A name has a branch exactly when it is a catalogue name. */
  lemma RouteCoversCatalogue()
    ensures forall n :: Route(n).Some? <==> n in Catalogue.Names(Catalogue.Definitions)
  {
    RouteCoversNames();
    Catalogue.CatalogueNames();
  }

  /** The branch names, in the order they are tried, are the operation
      names in catalogue order. */
  lemma BranchNames()
    ensures |Branches| == |Catalogue.OperationNames|
    ensures forall i | 0 <= i < |Branches| :: HandlerName(Branches[i]) == Catalogue.OperationNames[i]
  {
  }

  /** The branches are tried in catalogue order. */
  lemma BranchesFollowCatalogue()
    ensures |Branches| == |Catalogue.Names(Catalogue.Definitions)|
    ensures forall i | 0 <= i < |Branches| :: HandlerName(Branches[i]) == Catalogue.Names(Catalogue.Definitions)[i]
  {
    BranchNames();
    Catalogue.CatalogueNames();
  }

  /** The first of `branches` whose name equals `taskCode`, as an if/elif
      chain over them picks it. */
  function FirstBranch(branches: seq<Handler>, taskCode: string): (r: Option<Handler>)
    ensures r.Some? ==> r.value in branches && HandlerName(r.value) == taskCode
    ensures r.None? <==> forall h | h in branches :: HandlerName(h) != taskCode
  {
    if branches == [] then None
    else if HandlerName(branches[0]) == taskCode then Some(branches[0])
    else FirstBranch(branches[1..], taskCode)
  }

  /** `Route` is the chain over `Branches`: every name selects the first
      branch that tests for it, and a name no branch tests selects none. */
  lemma RouteIsFirstMatchingBranch()
    ensures forall n :: Route(n) == FirstBranch(Branches, n)
  {
    RouteReachesEveryHandler();
    RouteCoversNames();
    EveryHandlerIsABranch();
    BranchesTestOperationNames();
    forall n ensures Route(n) == FirstBranch(Branches, n) {
      if Route(n).Some? {
        assert Route(n).value in Branches;
      }
    }
  }

  lemma EveryHandlerIsABranch()
    ensures forall h :: h in Branches
  {
    forall h ensures h in Branches {
      match h
      case A1 => assert Branches[0] == h;
      case A2 => assert Branches[1] == h;
      case A3 => assert Branches[2] == h;
      case A4 => assert Branches[3] == h;
      case A5 => assert Branches[4] == h;
      case A6 => assert Branches[5] == h;
      case A7 => assert Branches[6] == h;
      case A8 => assert Branches[7] == h;
      case A9 => assert Branches[8] == h;
      case A10 => assert Branches[9] == h;
      case B12 => assert Branches[10] == h;
      case B3 => assert Branches[11] == h;
      case B5 => assert Branches[12] == h;
      case B6 => assert Branches[13] == h;
      case B7 => assert Branches[14] == h;
      case B9 => assert Branches[15] == h;
    }
  }

  lemma BranchesTestOperationNames()
    ensures forall h | h in Branches :: HandlerName(h) in Catalogue.OperationNames
  {
    BranchNames();
    forall h | h in Branches ensures HandlerName(h) in Catalogue.OperationNames {
      var i :| 0 <= i < |Branches| && Branches[i] == h;
      assert HandlerName(Branches[i]) == Catalogue.OperationNames[i];
    }
  }

  /** The tool call the classifier returns: `response['name']` and the raw
      `response['arguments']` text. */
  datatype Completion = Completion(name: string, arguments: string)

  /** One evaluation of `X(**json.loads(arguments))` in a branch: the
      executor and the decoded arguments it is handed. */
  datatype Invocation = Invocation(handler: Handler, args: Json)

  /** The reply of `/run`: the success message, or the `HTTPException`. */
  datatype Outcome = Success(message: string) | Error(status: int, detail: string)

  /** The outcome together with the executor calls made on the way. */
  datatype Response = Response(outcome: Outcome, invoked: seq<Invocation>)

  function SuccessMessage(task: string): string {
    "Task '" + task + "' executed successfully"
  }

  /** `run_task(task)`. The three stages that can raise are parameters, each
      giving `str(e)` of its exception on failure: `classify` is
      `get_completions` with the `name`/`arguments` lookups, `decode` is
      `json.loads`, and `execute` is the keyword binding and the body of the
      executor. */
  function RunTask(
    task: string,
    classify: string -> Result<Completion, string>,
    decode: string -> Result<Json, string>,
    execute: Invocation -> Result<(), string>): (r: Response)
    ensures |r.invoked| <= 1
    ensures r.invoked != [] ==>
      && classify(task).Success?
      && Route(classify(task).value.name) == Some(r.invoked[0].handler)
      && decode(classify(task).value.arguments) == Result.Success(r.invoked[0].args)
    ensures r.outcome.Success? ==> r.outcome.message == SuccessMessage(task)
    ensures r.outcome.Error? ==> r.outcome.status == 400
  {
    match classify(task)
    case Failure(e) => Response(Error(400, e), [])
    case Success(c) =>
      match Route(c.name)
      case None => Response(Outcome.Success(SuccessMessage(task)), [])
      case Some(h) =>
        match decode(c.arguments)
        case Failure(e) => Response(Error(400, e), [])
        case Success(args) =>
          var call := Invocation(h, args);
          match execute(call)
          case Failure(e) => Response(Error(400, e), [call])
          case Success(_) => Response(Outcome.Success(SuccessMessage(task)), [call])
  }

  /** A name outside the catalogue reaches no executor and the reply is
      still the success message, whatever the arguments text holds. */
  lemma UnknownNameSucceeds(
    task: string,
    classify: string -> Result<Completion, string>,
    decode: string -> Result<Json, string>,
    execute: Invocation -> Result<(), string>)
    requires classify(task).Success? && classify(task).value.name !in Catalogue.OperationNames
    ensures RunTask(task, classify, decode, execute) == Response(Outcome.Success(SuccessMessage(task)), [])
  {
    RouteCoversNames();
  }

  /** A catalogue name invokes exactly its own executor, with the decoded
      arguments as they are: nothing is checked against the descriptor. The
      reply is the success message exactly when the executor returns. */
  lemma ArgumentsReachExecutorUnchecked(
    task: string,
    classify: string -> Result<Completion, string>,
    decode: string -> Result<Json, string>,
    execute: Invocation -> Result<(), string>,
    h: Handler, args: Json)
    requires classify(task).Success? && classify(task).value.name == HandlerName(h)
    requires decode(classify(task).value.arguments) == Result.Success(args)
    ensures RunTask(task, classify, decode, execute).invoked == [Invocation(h, args)]
    ensures RunTask(task, classify, decode, execute).outcome.Success? <==> execute(Invocation(h, args)).Success?
  {
    RouteReachesEveryHandler();
  }

  /** An exception at any stage becomes `Error(400, str(e))` and never the
      success message; only an executor failure comes after an invocation. */
  lemma FailuresBecome400(
    task: string,
    classify: string -> Result<Completion, string>,
    decode: string -> Result<Json, string>,
    execute: Invocation -> Result<(), string>)
    ensures classify(task).Failure? ==>
      RunTask(task, classify, decode, execute) == Response(Error(400, classify(task).error), [])
    ensures classify(task).Success? && Route(classify(task).value.name).Some? && decode(classify(task).value.arguments).Failure? ==>
      RunTask(task, classify, decode, execute) == Response(Error(400, decode(classify(task).value.arguments).error), [])
    ensures forall h, args ::
      classify(task).Success? && Route(classify(task).value.name) == Some(h) &&
      decode(classify(task).value.arguments) == Result.Success(args) && execute(Invocation(h, args)).Failure? ==>
      RunTask(task, classify, decode, execute) == Response(Error(400, execute(Invocation(h, args)).error), [Invocation(h, args)])
  {
  }

  /** The outcome is a success exactly when no stage that runs fails. */
  lemma SuccessIffNoStageFails(
    task: string,
    classify: string -> Result<Completion, string>,
    decode: string -> Result<Json, string>,
    execute: Invocation -> Result<(), string>)
    ensures RunTask(task, classify, decode, execute).outcome.Success? <==>
      && classify(task).Success?
      && (Route(classify(task).value.name).Some? ==>
            && decode(classify(task).value.arguments).Success?
            && execute(Invocation(Route(classify(task).value.name).value, decode(classify(task).value.arguments).value)).Success?)
  {
  }

  /** The keyword parameters of the executors defined in tasksA.py, every one
      with a default; the B executors are defined in tasksB.py, which is not
      part of this model. */
  function Parameters(h: Handler): Option<seq<Catalogue.Param>> {
    match h
    case A1 => Some([Catalogue.Email])
    case A2 => Some([Catalogue.PrettierVersion, Catalogue.Filename])
    case A3 => Some([Catalogue.Filename, Catalogue.Targetfile, Catalogue.Weekday])
    case A4 => Some([Catalogue.Filename, Catalogue.Targetfile])
    case A5 => Some([Catalogue.LogDirPath, Catalogue.OutputFilePath, Catalogue.NumFiles])
    case A6 => Some([Catalogue.DocDirPath, Catalogue.OutputFilePath])
    case A7 => Some([Catalogue.Filename, Catalogue.OutputFile])
    case A8 => Some([Catalogue.Filename, Catalogue.ImagePath])
    case A9 => Some([Catalogue.Filename, Catalogue.OutputFilename])
    case A10 => Some([Catalogue.Filename, Catalogue.OutputFilename, Catalogue.Query])
    case _ => None
  }

  /** `X(**args)` binds for a tasksA executor: `args` is a mapping and each of
      its keys names a parameter (a missing one takes its default). */
  predicate Binds(params: seq<Catalogue.Param>, args: Json) {
    args.JObject? && forall k | k in args.fields :: exists p | p in params :: Catalogue.Key(p) == k
  }

  /** A1 to A5 accept exactly the properties their descriptors declare, in
      the same order. */
  lemma ParametersMatchCatalogueA1ToA5()
    ensures forall h | h == A1 || h == A2 || h == A3 || h == A4 || h == A5 ::
      Parameters(h).value == Catalogue.PropertyNames(DescriptorOf(h).properties)
  {
    forall h | h == A1 || h == A2 || h == A3 || h == A4 || h == A5
      ensures Parameters(h).value == Catalogue.PropertyNames(DescriptorOf(h).properties)
    {
      match h
      case A1 => assert Catalogue.PropertyNames(Catalogue.OpA1.properties) == [Catalogue.Email];
      case A2 => assert Catalogue.PropertyNames(Catalogue.OpA2.properties) == [Catalogue.PrettierVersion, Catalogue.Filename];
      case A3 => assert Catalogue.PropertyNames(Catalogue.OpA3.properties) == [Catalogue.Filename, Catalogue.Targetfile, Catalogue.Weekday];
      case A4 => assert Catalogue.PropertyNames(Catalogue.OpA4.properties) == [Catalogue.Filename, Catalogue.Targetfile];
      case A5 => assert Catalogue.PropertyNames(Catalogue.OpA5.properties) == [Catalogue.LogDirPath, Catalogue.OutputFilePath, Catalogue.NumFiles];
    }
  }

  /** A6 to A10 accept exactly the properties their descriptors declare, in
      the same order. */
  lemma ParametersMatchCatalogueA6ToA10()
    ensures forall h | h == A6 || h == A7 || h == A8 || h == A9 || h == A10 ::
      Parameters(h).value == Catalogue.PropertyNames(DescriptorOf(h).properties)
  {
    forall h | h == A6 || h == A7 || h == A8 || h == A9 || h == A10
      ensures Parameters(h).value == Catalogue.PropertyNames(DescriptorOf(h).properties)
    {
      match h
      case A6 => assert Catalogue.PropertyNames(Catalogue.OpA6.properties) == [Catalogue.DocDirPath, Catalogue.OutputFilePath];
      case A7 => assert Catalogue.PropertyNames(Catalogue.OpA7.properties) == [Catalogue.Filename, Catalogue.OutputFile];
      case A8 => assert Catalogue.PropertyNames(Catalogue.OpA8.properties) == [Catalogue.Filename, Catalogue.ImagePath];
      case A9 => assert Catalogue.PropertyNames(Catalogue.OpA9.properties) == [Catalogue.Filename, Catalogue.OutputFilename];
      case A10 => assert Catalogue.PropertyNames(Catalogue.OpA10.properties) == [Catalogue.Filename, Catalogue.OutputFilename, Catalogue.Query];
    }
  }

  /** Each tasksA executor accepts exactly the properties its descriptor
      declares, in the same order. */
  lemma ParametersMatchCatalogue()
    ensures forall h | Parameters(h).Some? ::
      Parameters(h).value == Catalogue.PropertyNames(DescriptorOf(h).properties)
  {
    ParametersMatchCatalogueA1ToA5();
    ParametersMatchCatalogueA6ToA10();
  }

  /** Arguments that supply A1's required `filename` cannot be bound to
      `A1(email=...)`, so following A1's required list makes the call raise. */
  lemma A1RequiredArgumentsCannotBind(args: Json)
    requires args.JObject? && Catalogue.Key(Catalogue.Filename) in args.fields
    ensures !Binds(Parameters(A1).value, args)
    ensures Catalogue.Filename in DescriptorOf(A1).required
  {
    Catalogue.A1RequiresUndeclared();
  }

  /** When A1 is chosen with arguments that follow its descriptor's
      required list, and a call whose arguments do not bind raises (the
      `TypeError` of Python's keyword binding), the reply is an HTTP 400
      error after the one failed invocation. */
  lemma A1RequiredArgumentsGive400(
    task: string,
    classify: string -> Result<Completion, string>,
    decode: string -> Result<Json, string>,
    execute: Invocation -> Result<(), string>,
    args: Json)
    requires classify(task).Success? && classify(task).value.name == "A1"
    requires decode(classify(task).value.arguments) == Result.Success(args)
    requires args.JObject? && Catalogue.Key(Catalogue.Filename) in args.fields
    requires forall a | !Binds(Parameters(A1).value, a) :: execute(Invocation(A1, a)).Failure?
    ensures RunTask(task, classify, decode, execute).invoked == [Invocation(A1, args)]
    ensures RunTask(task, classify, decode, execute).outcome.Error?
    ensures RunTask(task, classify, decode, execute).outcome.status == 400
  {
    A1RequiredArgumentsCannotBind(args);
    RouteReachesEveryHandler();
    assert Route("A1") == Some(A1) by {
      assert HandlerName(A1) == "A1";
    }
  }

  /** A `num_files` below the declared minimum still reaches A5: the schema
      is never consulted. */
  lemma SchemaViolationReachesExecutor(
    task: string,
    classify: string -> Result<Completion, string>,
    decode: string -> Result<Json, string>,
    execute: Invocation -> Result<(), string>,
    n: int)
    requires classify(task).Success? && classify(task).value.name == "A5"
    requires decode(classify(task).value.arguments) == Result.Success(JObject(map["num_files" := JInt(n)]))
    requires n < 1
    ensures !Catalogue.Conforms(Catalogue.Int(n), Catalogue.OpA5.properties[2].schema)
    ensures Binds(Parameters(A5).value, JObject(map["num_files" := JInt(n)]))
    ensures RunTask(task, classify, decode, execute).invoked == [Invocation(A5, JObject(map["num_files" := JInt(n)]))]
  {
    Catalogue.NumFilesDefaultConforms();
    var params := Parameters(A5).value;
    assert Catalogue.Key(params[2]) == "num_files";
  }
}
