/** The layout builder, `createMicroservicesStructure` and its helpers: the
    user's choices become a trace of `mkdir -p` and `writeFile` calls under the
    project root, one block per service unit followed by the shared root
    artefacts. */
module Scaffold {
  import opened JsValues
  import opened FileTree
  import opened Templates

  /** The answers of the prompts, each `None` when its prompt was dismissed. */
  datatype Choices = Choices(
    theme: Option<string>,
    packages: Option<seq<string>>,
    middlewares: Option<seq<string>>,
    architecture: Option<string>,
    database: Option<string>,
    testingFramework: Option<string>,
    uiFramework: Option<string>)

  /** The text of every file the builder can write, as the template functions
      generate it; `index` is the outcome of generating `index.js`, which
      throws when the middleware list is missing. The trace below is written
      in terms of these texts, and `TextsFor` says what they are. */
  datatype FileTexts = FileTexts(
    env: string,
    index: Result<string, JsError>,
    controller: string,
    route: string,
    model: string,
    test: string,
    tailwindConfig: string,
    tailwindCss: string,
    sampleButton: string,
    dockerfile: string,
    compose: string)

  /** What the template functions generate for the given choices. Generating
      `index.js` fails exactly when the middleware list is missing; the model
      and test texts are empty unless a template exists for the choice. */
  function TextsFor(ch: Choices): (x: FileTexts)
    ensures x.index.Ok? <==> ch.middlewares.Some?
    ensures x.index.Err? ==> x.index.error == UndefinedMapError
    ensures x.model != "" <==> ch.database == Some("MongoDB") || ch.database == Some("PostgreSQL")
    ensures x.test != "" <==> ch.testingFramework == Some("Mocha") || ch.testingFramework == Some("Jest")
  {
    FileTexts(
      EnvText,
      GenerateIndexContent(ch.theme, ch.database, ch.middlewares),
      GenerateSampleController(),
      GenerateSampleRoute(),
      GenerateSampleModel(ch.database),
      GenerateTestFile(ch.testingFramework),
      TailwindConfigText,
      TailwindCssText,
      SampleButtonText,
      DockerfileText,
      ComposeText)
  }

  /** How a run ended: normally, or by an exception escaping the builder. */
  datatype Outcome = Completed | Threw(error: JsError)

  /** The filesystem calls a run made, in order, and how it ended. */
  datatype Run = Run(ops: seq<Op>, outcome: Outcome)

  /** The service units for an architecture choice. */
  function Services(architecture: Option<string>): (r: seq<string>)
    ensures |r| >= 1
    ensures forall i, j :: 0 <= i < j < |r| ==> r[i] != r[j]
  {
    if architecture == Some("Microservices") then ["service1", "service2"] else ["monolith"]
  }

  /** `createConfigFiles(servicePath, database)`: only the `.env` file, whatever the database. */
  function CreateConfigFiles(servicePath: Path, database: Option<string>, x: FileTexts): seq<Op>
  {
    [Write(servicePath + [".env"], x.env)]
  }

  /** `setupUIFramework(servicePath, uiFramework)`: the Tailwind config,
      `styles/` and its stylesheet; or `components/` and the sample button;
      or nothing for any other value. */
  function SetupUIFramework(servicePath: Path, uiFramework: string, x: FileTexts): seq<Op>
  {
    if uiFramework == "Tailwind CSS" then
      [Write(servicePath + ["tailwind.config.js"], x.tailwindConfig),
       Mkdir(servicePath + ["styles"]),
       Write(servicePath + ["styles", "tailwind.css"], x.tailwindCss)]
    else if uiFramework == "Material-UI" then
      [Mkdir(servicePath + ["components"]),
       Write(servicePath + ["components", "SampleButton.js"], x.sampleButton)]
    else
      []
  }

  /** `createDockerFiles(basePath)`. */
  function CreateDockerFiles(basePath: Path, x: FileTexts): seq<Op>
  {
    [Write(basePath + ["Dockerfile"], x.dockerfile),
     Write(basePath + ["docker-compose.yml"], x.compose)]
  }

  /** The service directory and its six standard sub-directories. */
  function Skeleton(servicePath: Path): seq<Op>
  {
    [Mkdir(servicePath),
     Mkdir(servicePath + ["controllers"]),
     Mkdir(servicePath + ["models"]),
     Mkdir(servicePath + ["routes"]),
     Mkdir(servicePath + ["middlewares"]),
     Mkdir(servicePath + ["config"]),
     Mkdir(servicePath + ["services"])]
  }

  /** The generated entry point and the sample controller and route. */
  function SampleSteps(servicePath: Path, index: string, x: FileTexts): seq<Op>
  {
    [Write(servicePath + ["index.js"], index),
     Write(servicePath + ["controllers", "sampleController.js"], x.controller),
     Write(servicePath + ["routes", "sampleRoute.js"], x.route)]
  }

  /** `if (database)`: the sample model. */
  function ModelSteps(servicePath: Path, database: Option<string>, x: FileTexts): seq<Op>
  {
    if Truthy(database)
    then [Write(servicePath + ["models", "sampleModel.js"], x.model)]
    else []
  }

  /** `if (testingFramework)`: the tests directory and the sample test. */
  function TestSteps(servicePath: Path, testingFramework: Option<string>, x: FileTexts): seq<Op>
  {
    if Truthy(testingFramework)
    then [Mkdir(servicePath + ["tests"]),
          Write(servicePath + ["tests", "sampleController.test.js"], x.test)]
    else []
  }

  /** `if (uiFramework)`: the UI framework's files. */
  function UISteps(servicePath: Path, uiFramework: Option<string>, x: FileTexts): seq<Op>
  {
    if Truthy(uiFramework) then SetupUIFramework(servicePath, uiFramework.value, x) else []
  }

  /** The steps of a service whose `index.js` could be generated. */
  function CompletedSteps(servicePath: Path, index: string, ch: Choices, x: FileTexts): seq<Op>
  {
    Skeleton(servicePath) + CreateConfigFiles(servicePath, ch.database, x)
      + SampleSteps(servicePath, index, x) + ModelSteps(servicePath, ch.database, x)
      + TestSteps(servicePath, ch.testingFramework, x) + UISteps(servicePath, ch.uiFramework, x)
  }

  /** The body of the service loop for one service: the skeleton and the
      `.env` file; then generating `index.js`, which may throw and end the
      run there; then the sample files and whatever the database, testing and
      UI choices call for. Every call acts inside the service directory. */
  function ServiceSteps(basePath: Path, service: string, ch: Choices, x: FileTexts): (r: Run)
    ensures r.outcome.Completed? <==> x.index.Ok?
    ensures r.outcome.Threw? ==> r.outcome.error == x.index.error
    ensures r.outcome.Threw? ==>
              r.ops == Skeleton(basePath + [service]) + CreateConfigFiles(basePath + [service], ch.database, x)
    ensures forall op :: op in r.ops ==> basePath + [service] <= op.path
  {
    var sp := basePath + [service];
    match x.index
    case Err(e) =>
      PiecesWithin(sp, "", ch, x);
      Run(Skeleton(sp) + CreateConfigFiles(sp, ch.database, x), Threw(e))
    case Ok(index) =>
      PiecesWithin(sp, index, ch, x);
      Run(CompletedSteps(sp, index, ch, x), Completed)
  }

  /** Every operation of the trace acts on `d` or below it. */
  predicate Within(ops: seq<Op>, d: Path)
  {
    forall op :: op in ops ==> d <= op.path
  }

  /** A path extended by further components lies below it. */
  lemma Extends(d: Path)
    ensures forall r: Path {:trigger d + r} :: d <= d + r
  {
    forall r: Path ensures d <= d + r {
      assert (d + r)[..|d|] == d;
    }
  }

  /** Each piece of a service's steps stays inside the service directory. */
  lemma PiecesWithin(sp: Path, index: string, ch: Choices, x: FileTexts)
    ensures Within(Skeleton(sp), sp) && Within(CreateConfigFiles(sp, ch.database, x), sp)
    ensures Within(SampleSteps(sp, index, x), sp) && Within(ModelSteps(sp, ch.database, x), sp)
    ensures Within(TestSteps(sp, ch.testingFramework, x), sp) && Within(UISteps(sp, ch.uiFramework, x), sp)
  {
    Extends(sp);
    SkeletonWithin(sp);
    OptionalWithin(sp, index, ch, x);
    SetupWithin(sp, ch.uiFramework, x);
  }

  lemma SkeletonWithin(sp: Path)
    requires forall r: Path {:trigger sp + r} :: sp <= sp + r
    ensures Within(Skeleton(sp), sp)
  {
    assert sp <= sp;
  }

  lemma OptionalWithin(sp: Path, index: string, ch: Choices, x: FileTexts)
    requires forall r: Path {:trigger sp + r} :: sp <= sp + r
    ensures Within(CreateConfigFiles(sp, ch.database, x), sp)
    ensures Within(SampleSteps(sp, index, x), sp)
    ensures Within(ModelSteps(sp, ch.database, x), sp)
    ensures Within(TestSteps(sp, ch.testingFramework, x), sp)
  {
  }

  lemma SetupWithin(sp: Path, uiFramework: Option<string>, x: FileTexts)
    requires forall r: Path {:trigger sp + r} :: sp <= sp + r
    ensures Within(UISteps(sp, uiFramework, x), sp)
  {
    if Truthy(uiFramework) {
      var ui := uiFramework.value;
      if ui == "Tailwind CSS" {
        assert Within(SetupUIFramework(sp, ui, x), sp);
      } else if ui == "Material-UI" {
        assert Within(SetupUIFramework(sp, ui, x), sp);
      }
    }
  }

  /** `services.forEach(...)`: the service steps one after the other; an
      exception in one service ends the loop. */
  function ForEachService(basePath: Path, services: seq<string>, ch: Choices, x: FileTexts): (r: Run)
    ensures r.outcome.Completed? <==> (|services| == 0 || x.index.Ok?)
    ensures r.outcome.Threw? ==> r.outcome.error == x.index.error
    ensures forall op :: op in r.ops ==> basePath < op.path && op.path[|basePath|] in services
    decreases |services|
  {
    if |services| == 0 then Run([], Completed)
    else
      var first := ServiceSteps(basePath, services[0], ch, x);
      if first.outcome.Threw? then
        assert forall op :: op in first.ops ==> op.path[|basePath|] == services[0] by {
          forall op | op in first.ops ensures op.path[|basePath|] == services[0] {
            PrefixAgrees(basePath + [services[0]], op.path, |basePath|);
          }
        }
        first
      else
        var rest := ForEachService(basePath, services[1..], ch, x);
        assert forall op :: op in first.ops ==> basePath < op.path && op.path[|basePath|] in services by {
          forall op | op in first.ops ensures basePath < op.path && op.path[|basePath|] in services {
            PrefixAgrees(basePath + [services[0]], op.path, |basePath|);
            assert basePath <= basePath + [services[0]];
          }
        }
        assert forall op :: op in rest.ops ==> op.path[|basePath|] in services by {
          forall op | op in rest.ops ensures op.path[|basePath|] in services {
            assert op.path[|basePath|] in services[1..];
          }
        }
        Run(first.ops + rest.ops, rest.outcome)
  }

  /** The number of operations in the trace acting on exactly `p`. */
  function OpsOn(ops: seq<Op>, p: Path): nat
    decreases |ops|
  {
    if |ops| == 0 then 0
    else (if ops[0].path == p then 1 else 0) + OpsOn(ops[1..], p)
  }

  lemma {:induction false} OpsOnAppend(a: seq<Op>, b: seq<Op>, p: Path)
    ensures OpsOn(a + b, p) == OpsOn(a, p) + OpsOn(b, p)
    decreases |a|
  {
    if |a| == 0 {
      assert a + b == b;
    } else {
      assert (a + b)[1..] == a[1..] + b;
      OpsOnAppend(a[1..], b, p);
    }
  }

  lemma {:induction false} OpsOnAbsent(ops: seq<Op>, p: Path)
    requires forall op :: op in ops ==> op.path != p
    ensures OpsOn(ops, p) == 0
    decreases |ops|
  {
    if |ops| > 0 {
      assert ops[0] in ops;
      assert forall op :: op in ops[1..] ==> op in ops;
      OpsOnAbsent(ops[1..], p);
    }
  }

  /** The three shared artefacts at the project root, created after the loop. */
  function RootSteps(basePath: Path, x: FileTexts): seq<Op>
  {
    [Mkdir(basePath + ["common"])] + CreateDockerFiles(basePath, x)
  }

  /** `createMicroservicesStructure(basePath, theme, packages, middlewares,
      architecture, database, testingFramework, uiFramework)`: the run with
      the texts the template functions generate. It throws exactly when the
      middleware list is missing, and then with the `.map` error. */
  function CreateMicroservicesStructure(basePath: Path, ch: Choices): (r: Run)
    ensures r.outcome.Completed? <==> ch.middlewares.Some?
    ensures r.outcome.Threw? ==> r.outcome.error == UndefinedMapError
  {
    StructureWith(basePath, ch, TextsFor(ch))
  }

  /** The builder's run with the generated texts `x`: the loop, then, unless
      it threw, the root artefacts. Every call stays strictly below the project
      root; the shared `common` directory, the Dockerfile and the compose file
      are each acted on exactly once, after every service call, and not at all
      when the loop threw. */
  function StructureWith(basePath: Path, ch: Choices, x: FileTexts): (r: Run)
    ensures r.outcome.Completed? <==> x.index.Ok?
    ensures r.outcome.Threw? ==> r.outcome.error == x.index.error
    ensures forall op :: op in r.ops ==> basePath < op.path
    ensures OpsOn(r.ops, basePath + ["common"]) == (if r.outcome.Completed? then 1 else 0)
    ensures OpsOn(r.ops, basePath + ["Dockerfile"]) == (if r.outcome.Completed? then 1 else 0)
    ensures OpsOn(r.ops, basePath + ["docker-compose.yml"]) == (if r.outcome.Completed? then 1 else 0)
    ensures r.outcome.Completed? ==>
              forall i :: 0 <= i < |r.ops| ==>
                (r.ops[i].path[|basePath|] in Services(ch.architecture) <==> i < |r.ops| - 3)
  {
    var services := Services(ch.architecture);
    var loop := ForEachService(basePath, services, ch, x);
    NoServiceIsShared(basePath, loop.ops, services);
    if loop.outcome.Threw? then
      loop
    else
      RootAfterLoop(basePath, loop.ops, services, x);
      Run(loop.ops + RootSteps(basePath, x), Completed)
  }

  /** Appending the root steps to a loop trace: each shared artefact once, and
      exactly the last three operations outside the service directories. */
  lemma RootAfterLoop(basePath: Path, loop: seq<Op>, services: seq<string>, x: FileTexts)
    requires services == ["service1", "service2"] || services == ["monolith"]
    requires forall op :: op in loop ==> basePath < op.path && op.path[|basePath|] in services
    ensures var ops := loop + RootSteps(basePath, x);
      && (forall op :: op in ops ==> basePath < op.path)
      && OpsOn(ops, basePath + ["common"]) == 1
      && OpsOn(ops, basePath + ["Dockerfile"]) == 1
      && OpsOn(ops, basePath + ["docker-compose.yml"]) == 1
      && forall i :: 0 <= i < |ops| ==> (ops[i].path[|basePath|] in services <==> i < |ops| - 3)
  {
    var root := RootSteps(basePath, x);
    var ops := loop + root;
    NoServiceIsShared(basePath, loop, services);
    OpsOnAppend(loop, root, basePath + ["common"]);
    OpsOnAppend(loop, root, basePath + ["Dockerfile"]);
    OpsOnAppend(loop, root, basePath + ["docker-compose.yml"]);
    RootStepsOnce(basePath, x);
    assert forall op :: op in root ==> basePath < op.path by {
      assert basePath < basePath + ["common"];
      assert basePath < basePath + ["Dockerfile"];
      assert basePath < basePath + ["docker-compose.yml"];
    }
    forall i | 0 <= i < |ops|
      ensures ops[i].path[|basePath|] in services <==> i < |ops| - 3
    {
      if i < |loop| {
        assert ops[i] in loop;
      } else {
        assert ops[i] == root[i - |loop|];
      }
    }
  }

  lemma RootStepsOnce(basePath: Path, x: FileTexts)
    ensures OpsOn(RootSteps(basePath, x), basePath + ["common"]) == 1
    ensures OpsOn(RootSteps(basePath, x), basePath + ["Dockerfile"]) == 1
    ensures OpsOn(RootSteps(basePath, x), basePath + ["docker-compose.yml"]) == 1
  {
    var root := RootSteps(basePath, x);
    Rebase(basePath, ["common"], ["Dockerfile"]);
    Rebase(basePath, ["common"], ["docker-compose.yml"]);
    Rebase(basePath, ["Dockerfile"], ["docker-compose.yml"]);
    OpsOnThree(root[0], root[1], root[2], basePath + ["common"]);
    OpsOnThree(root[0], root[1], root[2], basePath + ["Dockerfile"]);
    OpsOnThree(root[0], root[1], root[2], basePath + ["docker-compose.yml"]);
    assert root == [root[0], root[1], root[2]];
  }

  lemma OpsOnThree(a: Op, b: Op, c: Op, p: Path)
    ensures OpsOn([a, b, c], p)
         == (if a.path == p then 1 else 0) + (if b.path == p then 1 else 0) + (if c.path == p then 1 else 0)
  {
    assert [a, b, c][1..] == [b, c];
    assert [b, c][1..] == [c];
    assert [c][1..] == [];
    assert OpsOn([c], p) == (if c.path == p then 1 else 0) + OpsOn([], p);
    assert OpsOn([b, c], p) == (if b.path == p then 1 else 0) + OpsOn([c], p);
    assert OpsOn([a, b, c], p) == (if a.path == p then 1 else 0) + OpsOn([b, c], p);
  }

  /** No service unit is named like a shared artefact, so the loop never acts on one. */
  lemma NoServiceIsShared(basePath: Path, ops: seq<Op>, services: seq<string>)
    requires services == ["service1", "service2"] || services == ["monolith"]
    requires forall op :: op in ops ==> basePath < op.path && op.path[|basePath|] in services
    ensures OpsOn(ops, basePath + ["common"]) == 0
    ensures OpsOn(ops, basePath + ["Dockerfile"]) == 0
    ensures OpsOn(ops, basePath + ["docker-compose.yml"]) == 0
  {
    assert forall op :: op in ops ==> op.path != basePath + ["common"];
    assert forall op :: op in ops ==> op.path != basePath + ["Dockerfile"];
    assert forall op :: op in ops ==> op.path != basePath + ["docker-compose.yml"];
    OpsOnAbsent(ops, basePath + ["common"]);
    OpsOnAbsent(ops, basePath + ["Dockerfile"]);
    OpsOnAbsent(ops, basePath + ["docker-compose.yml"]);
  }
}
