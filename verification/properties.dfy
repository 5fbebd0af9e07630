/** The promises of the scaffold builder, each read off the layout theorem:
    what a run leaves in every service unit and at the project root, what it
    leaves when it throws, and what it leaves alone outside the project root.
    They are stated for any file texts `x`; `Built` is the case
    `x == TextsFor(ch)`, and the last group says what those texts are. */
module Properties {
  import opened JsValues
  import opened FileTree
  import opened Templates
  import opened Scaffold
  import opened Layout
  import opened Text

  /** `u` holds exactly the layout table below the project root. */
  ghost predicate IsLayout(u: Tree, basePath: Path, ch: Choices, x: FileTexts)
  {
    forall rel {:trigger Lookup(u, basePath + rel)} :: |rel| >= 1 ==> Lookup(u, basePath + rel) == LayoutEntry(ch, x, rel)
  }

  /** The tree the builder leaves on a fresh project root is the layout for
      the texts the template functions generate. */
  lemma BuiltIsLayout(t: Tree, basePath: Path, ch: Choices)
    requires FreshRoot(t, basePath)
    ensures IsLayout(Built(t, basePath, ch), basePath, ch, TextsFor(ch))
  {
    BuiltWithIsLayout(t, basePath, ch, TextsFor(ch));
  }

  /** The tree a run with texts `x` leaves on a fresh project root is the layout. */
  lemma BuiltWithIsLayout(t: Tree, basePath: Path, ch: Choices, x: FileTexts)
    requires FreshRoot(t, basePath)
    ensures IsLayout(BuiltWith(t, basePath, ch, x), basePath, ch, x)
  {
    forall rel | |rel| >= 1
      ensures Lookup(BuiltWith(t, basePath, ch, x), basePath + rel) == LayoutEntry(ch, x, rel)
    {
      BuiltWithLayout(t, basePath, ch, x, rel);
    }
  }

  /** What the tree holds in service unit `s`, at `rel` relative to it. */
  function InService(u: Tree, basePath: Path, s: string, rel: Path): Option<Node>
  {
    Lookup(u, basePath + [s] + rel)
  }

  /** In the layout, every service unit the loop reached holds the service table. */
  lemma InServiceIsTable(u: Tree, basePath: Path, ch: Choices, x: FileTexts, s: string, rel: Path)
    requires IsLayout(u, basePath, ch, x) && s in Reached(ch, x)
    ensures InService(u, basePath, s, rel) == ServiceEntry(ch, x, rel)
  {
    assert basePath + [s] + rel == basePath + ([s] + rel);
    assert ([s] + rel)[1..] == rel;
    assert Lookup(u, basePath + ([s] + rel)) == LayoutEntry(ch, x, [s] + rel);
  }

  /** The top-level directories of a completed run: `service1` and `service2`
      for the microservices architecture, `monolith` for anything else
      (including a dismissed prompt), and `common`. */
  lemma TopLevelDirectories(u: Tree, basePath: Path, ch: Choices, x: FileTexts, name: string)
    requires IsLayout(u, basePath, ch, x) && x.index.Ok?
    ensures Lookup(u, basePath + [name]) == Some(Dir) <==>
              || name == "common"
              || (ch.architecture == Some("Microservices") && (name == "service1" || name == "service2"))
              || (ch.architecture != Some("Microservices") && name == "monolith")
  {
    assert Lookup(u, basePath + [name]) == LayoutEntry(ch, x, [name]);
    assert [name][1..] == [];
  }

  /** Every service unit of a completed run has the six standard
      directories, the `.env` file, the generated `index.js`, and the sample
      controller and route, whatever else was chosen. */
  lemma StandardContents(u: Tree, basePath: Path, ch: Choices, x: FileTexts, s: string)
    requires IsLayout(u, basePath, ch, x) && x.index.Ok? && s in Services(ch.architecture)
    ensures forall d :: d in StandardDirs ==> InService(u, basePath, s, [d]) == Some(Dir)
    ensures InService(u, basePath, s, []) == Some(Dir)
    ensures InService(u, basePath, s, [".env"]) == Some(File(x.env))
    ensures InService(u, basePath, s, ["index.js"]) == Some(File(x.index.value))
    ensures InService(u, basePath, s, ["controllers", "sampleController.js"]) == Some(File(x.controller))
    ensures InService(u, basePath, s, ["routes", "sampleRoute.js"]) == Some(File(x.route))
  {
    forall d | d in StandardDirs
      ensures InService(u, basePath, s, [d]) == Some(Dir)
    {
      InServiceIsTable(u, basePath, ch, x, s, [d]);
    }
    InServiceIsTable(u, basePath, ch, x, s, []);
    InServiceIsTable(u, basePath, ch, x, s, [".env"]);
    InServiceIsTable(u, basePath, ch, x, s, ["index.js"]);
    InServiceIsTable(u, basePath, ch, x, s, ["controllers", "sampleController.js"]);
    InServiceIsTable(u, basePath, ch, x, s, ["routes", "sampleRoute.js"]);
  }

  /** The `.env` file is in every service unit the loop reached, even when
      the run threw right after writing it, and holds the configuration text. */
  lemma EnvFile(u: Tree, basePath: Path, ch: Choices, x: FileTexts, s: string)
    requires IsLayout(u, basePath, ch, x) && s in Reached(ch, x)
    ensures InService(u, basePath, s, [".env"]) == Some(File(x.env))
  {
    InServiceIsTable(u, basePath, ch, x, s, [".env"]);
  }

  /** The sample model exists iff the database answer is truthy, and then
      holds the generated model text. */
  lemma ModelFile(u: Tree, basePath: Path, ch: Choices, x: FileTexts, s: string)
    requires IsLayout(u, basePath, ch, x) && x.index.Ok? && s in Services(ch.architecture)
    ensures InService(u, basePath, s, ["models", "sampleModel.js"]) ==
              (if Truthy(ch.database) then Some(File(x.model)) else None)
  {
    InServiceIsTable(u, basePath, ch, x, s, ["models", "sampleModel.js"]);
  }

  /** The tests directory and the sample test exist iff the testing answer
      is truthy; the test holds the generated test text. */
  lemma TestFiles(u: Tree, basePath: Path, ch: Choices, x: FileTexts, s: string)
    requires IsLayout(u, basePath, ch, x) && x.index.Ok? && s in Services(ch.architecture)
    ensures InService(u, basePath, s, ["tests"]) ==
              (if Truthy(ch.testingFramework) then Some(Dir) else None)
    ensures InService(u, basePath, s, ["tests", "sampleController.test.js"]) ==
              (if Truthy(ch.testingFramework) then Some(File(x.test)) else None)
  {
    InServiceIsTable(u, basePath, ch, x, s, ["tests"]);
    InServiceIsTable(u, basePath, ch, x, s, ["tests", "sampleController.test.js"]);
  }

  /** The three ways the UI answer can go. */
  datatype UIOutcome = TailwindFiles | MaterialFiles | NoUIFiles

  function UIOutcomeOf(uiFramework: Option<string>): UIOutcome
  {
    if uiFramework == Some("Tailwind CSS") then TailwindFiles
    else if uiFramework == Some("Material-UI") then MaterialFiles
    else NoUIFiles
  }

  /** Exactly one of three outcomes for the UI artefacts of a service unit:
      the Tailwind config, `styles/` and its stylesheet; or `components/`
      and the sample button; or none of the five. */
  lemma UIFiles(u: Tree, basePath: Path, ch: Choices, x: FileTexts, s: string)
    requires IsLayout(u, basePath, ch, x) && x.index.Ok? && s in Services(ch.architecture)
    ensures var o := UIOutcomeOf(ch.uiFramework);
      && InService(u, basePath, s, ["tailwind.config.js"])
         == (if o == TailwindFiles then Some(File(x.tailwindConfig)) else None)
      && InService(u, basePath, s, ["styles"])
         == (if o == TailwindFiles then Some(Dir) else None)
      && InService(u, basePath, s, ["styles", "tailwind.css"])
         == (if o == TailwindFiles then Some(File(x.tailwindCss)) else None)
      && InService(u, basePath, s, ["components"])
         == (if o == MaterialFiles then Some(Dir) else None)
      && InService(u, basePath, s, ["components", "SampleButton.js"])
         == (if o == MaterialFiles then Some(File(x.sampleButton)) else None)
  {
    InServiceIsTable(u, basePath, ch, x, s, ["tailwind.config.js"]);
    InServiceIsTable(u, basePath, ch, x, s, ["styles"]);
    InServiceIsTable(u, basePath, ch, x, s, ["styles", "tailwind.css"]);
    InServiceIsTable(u, basePath, ch, x, s, ["components"]);
    InServiceIsTable(u, basePath, ch, x, s, ["components", "SampleButton.js"]);
  }

  /** A completed run puts `common/`, the Dockerfile and the compose file at
      the project root. */
  lemma RootArtefacts(u: Tree, basePath: Path, ch: Choices, x: FileTexts)
    requires IsLayout(u, basePath, ch, x) && x.index.Ok?
    ensures Lookup(u, basePath + ["common"]) == Some(Dir)
    ensures Lookup(u, basePath + ["Dockerfile"]) == Some(File(x.dockerfile))
    ensures Lookup(u, basePath + ["docker-compose.yml"]) == Some(File(x.compose))
  {
    assert Lookup(u, basePath + ["common"]) == LayoutEntry(ch, x, ["common"]);
    assert Lookup(u, basePath + ["Dockerfile"]) == LayoutEntry(ch, x, ["Dockerfile"]);
    assert Lookup(u, basePath + ["docker-compose.yml"]) == LayoutEntry(ch, x, ["docker-compose.yml"]);
  }

  /** Generating `index.js` threw: the run stopped right after the first
      service's skeleton and `.env`, which is all it left; no other service,
      no sample files, no root artefacts. */
  lemma ThrownRun(u: Tree, basePath: Path, ch: Choices, x: FileTexts, rel: Path)
    requires IsLayout(u, basePath, ch, x) && x.index.Err? && |rel| >= 1
    ensures var first := Services(ch.architecture)[0];
      Lookup(u, basePath + rel).Some? <==>
        || rel == [first]
        || (|rel| == 2 && rel[0] == first && rel[1] in StandardDirs)
        || rel == [first, ".env"]
  {
    assert Lookup(u, basePath + rel) == LayoutEntry(ch, x, rel);
    var first := Services(ch.architecture)[0];
    if rel[0] == first {
      assert rel == [first] + rel[1..];
      if |rel| == 2 {
        assert rel[1..] == [rel[1]];
      }
    }
  }

  // ----- Outside the project root ------------------------------------------

  /** The first operation of a run creates the first service's directory. */
  lemma FirstOp(basePath: Path, ch: Choices, x: FileTexts)
    ensures Mkdir(basePath + [Services(ch.architecture)[0]]) in StructureWith(basePath, ch, x).ops
  {
    var services := Services(ch.architecture);
    StructureUnfold(basePath, ch, x);
    LoopUnfold(basePath, services, ch, x);
    var sp := basePath + [services[0]];
    assert ServiceOps(basePath, services[0], ch, x)[0] == Mkdir(sp);
  }

  /** A path that `mkdir -p` below the project root can reach is an ancestor
      of the root (or the root itself) or lies below it. */
  lemma Comparable(basePath: Path, p: Path, q: Path)
    requires basePath < p && q <= p
    ensures q <= basePath || basePath < q
  {
    if |q| <= |basePath| {
      assert forall i :: 0 <= i < |q| ==> q[i] == p[i] == basePath[i];
    } else {
      assert forall i :: 0 <= i < |basePath| ==> basePath[i] == p[i] == q[i];
    }
  }

  /** A run changes nothing outside the project root, except that `mkdir -p`
      creates the root and its ancestors when they are missing. */
  lemma OutsideRoot(t: Tree, basePath: Path, ch: Choices, x: FileTexts, q: Path)
    requires !(basePath < q)
    ensures !(q <= basePath) ==> Lookup(BuiltWith(t, basePath, ch, x), q) == Lookup(t, q)
    ensures q <= basePath && q in t ==> Lookup(BuiltWith(t, basePath, ch, x), q) == Lookup(t, q)
    ensures 0 < |q| && q <= basePath && q !in t ==> Lookup(BuiltWith(t, basePath, ch, x), q) == Some(Dir)
  {
    var ops := StructureWith(basePath, ch, x).ops;
    assert forall op :: op in ops && op.Write? ==> op.path != q;
    if !(q <= basePath) {
      forall op | op in ops
        ensures !Touches(op, q)
      {
        if op.Mkdir? && q <= op.path {
          Comparable(basePath, op.path, q);
        }
      }
      ApplyUntouched(t, ops, q);
    } else if q in t {
      match t[q]
      case Dir => ApplyCreated(t, ops, q, q);
      case File(c) => ApplyWritten(t, ops, q, c);
    } else if 0 < |q| {
      FirstOp(basePath, ch, x);
      ApplyCreated(t, ops, q, basePath + [Services(ch.architecture)[0]]);
    }
  }

  // ----- What the run ignores ----------------------------------------------

  /** The loop never reads the theme or the package list. */
  lemma {:induction false} LoopIgnoresThemeAndPackages(basePath: Path, services: seq<string>, ch: Choices, x: FileTexts,
                                                       theme: Option<string>, packages: Option<seq<string>>)
    ensures ForEachService(basePath, services, ch.(theme := theme, packages := packages), x)
         == ForEachService(basePath, services, ch, x)
    decreases |services|
  {
    if |services| > 0 {
      LoopIgnoresThemeAndPackages(basePath, services[1..], ch, x, theme, packages);
    }
  }

  /** Neither does the run with given texts. */
  lemma StructureIgnoresThemeAndPackages(basePath: Path, ch: Choices, x: FileTexts,
                                         theme: Option<string>, packages: Option<seq<string>>)
    ensures StructureWith(basePath, ch.(theme := theme, packages := packages), x) == StructureWith(basePath, ch, x)
  {
    LoopIgnoresThemeAndPackages(basePath, Services(ch.architecture), ch, x, theme, packages);
  }

  /** The builder's run is the same whatever theme and packages were picked:
      the theme reaches only `generateIndexContent`, which ignores it, and
      the packages matter only to the installer. */
  lemma ThemeAndPackagesIgnored(basePath: Path, ch: Choices, theme: Option<string>, packages: Option<seq<string>>)
    ensures CreateMicroservicesStructure(basePath, ch.(theme := theme, packages := packages))
         == CreateMicroservicesStructure(basePath, ch)
  {
    var ch' := ch.(theme := theme, packages := packages);
    assert TextsFor(ch') == TextsFor(ch);
    StructureIgnoresThemeAndPackages(basePath, ch, TextsFor(ch), theme, packages);
  }

  // ----- The builder's own texts, end to end ------------------------------

  /** Every unit the builder reached on a fresh root has `.env` with the fixed
      configuration text, whatever the database and even when the run threw. */
  lemma EnvBuilt(t: Tree, basePath: Path, ch: Choices, s: string)
    requires FreshRoot(t, basePath) && s in Reached(ch, TextsFor(ch))
    ensures InService(Built(t, basePath, ch), basePath, s, [".env"]) == Some(File(EnvText))
  {
    BuiltIsLayout(t, basePath, ch);
    EnvFile(Built(t, basePath, ch), basePath, ch, TextsFor(ch), s);
  }

  /** The sample model the builder writes: the Mongoose schema for MongoDB,
      the `pg` client for PostgreSQL, an empty file for any other truthy
      answer (MySQL included), and no file when the answer is falsy. */
  lemma ModelBuilt(t: Tree, basePath: Path, ch: Choices, s: string)
    requires FreshRoot(t, basePath) && ch.middlewares.Some? && s in Services(ch.architecture)
    ensures InService(Built(t, basePath, ch), basePath, s, ["models", "sampleModel.js"]) ==
              if ch.database == Some("MongoDB") then Some(File(MongoModelText))
              else if ch.database == Some("PostgreSQL") then Some(File(PgModelText))
              else if Truthy(ch.database) then Some(File(""))
              else None
  {
    BuiltIsLayout(t, basePath, ch);
    ModelFile(Built(t, basePath, ch), basePath, ch, TextsFor(ch), s);
  }

  /** The sample test the builder writes: the Mocha or the Jest suite, an
      empty file for any other truthy answer, and neither `tests/` nor the
      file when the answer is falsy. */
  lemma TestBuilt(t: Tree, basePath: Path, ch: Choices, s: string)
    requires FreshRoot(t, basePath) && ch.middlewares.Some? && s in Services(ch.architecture)
    ensures InService(Built(t, basePath, ch), basePath, s, ["tests", "sampleController.test.js"]) ==
              if ch.testingFramework == Some("Mocha") then Some(File(MochaTestText))
              else if ch.testingFramework == Some("Jest") then Some(File(JestTestText))
              else if Truthy(ch.testingFramework) then Some(File(""))
              else None
  {
    BuiltIsLayout(t, basePath, ch);
    TestFiles(Built(t, basePath, ch), basePath, ch, TextsFor(ch), s);
  }

  /** Every unit of a completed run holds the sample controller and the
      sample route, each with its own fixed text. */
  lemma SamplesBuilt(t: Tree, basePath: Path, ch: Choices, s: string)
    requires FreshRoot(t, basePath) && ch.middlewares.Some? && s in Services(ch.architecture)
    ensures InService(Built(t, basePath, ch), basePath, s, ["controllers", "sampleController.js"]) == Some(File(ControllerText))
    ensures InService(Built(t, basePath, ch), basePath, s, ["routes", "sampleRoute.js"]) == Some(File(RouteText))
  {
    BuiltIsLayout(t, basePath, ch);
    StandardContents(Built(t, basePath, ch), basePath, ch, TextsFor(ch), s);
  }

  /** The UI files the builder writes: for Tailwind CSS the configuration
      and a stylesheet whose lines are exactly the three `@tailwind`
      directives, for Material-UI the sample button, and neither otherwise. */
  lemma UIBuilt(t: Tree, basePath: Path, ch: Choices, s: string)
    requires FreshRoot(t, basePath) && ch.middlewares.Some? && s in Services(ch.architecture)
    ensures InService(Built(t, basePath, ch), basePath, s, ["tailwind.config.js"])
         == (if ch.uiFramework == Some("Tailwind CSS") then Some(File(TailwindConfigText)) else None)
    ensures InService(Built(t, basePath, ch), basePath, s, ["styles", "tailwind.css"])
         == (if ch.uiFramework == Some("Tailwind CSS") then Some(File(TailwindCssText)) else None)
    ensures Split(TailwindCssText, '\n') == TailwindDirectives
    ensures InService(Built(t, basePath, ch), basePath, s, ["components", "SampleButton.js"])
         == (if ch.uiFramework == Some("Material-UI") then Some(File(SampleButtonText)) else None)
  {
    BuiltIsLayout(t, basePath, ch);
    UIFiles(Built(t, basePath, ch), basePath, ch, TextsFor(ch), s);
    TailwindCssLines();
  }

  /** A completed run leaves the Dockerfile and the compose file at the
      project root, each with its own fixed text. */
  lemma DockerBuilt(t: Tree, basePath: Path, ch: Choices)
    requires FreshRoot(t, basePath) && ch.middlewares.Some?
    ensures Lookup(Built(t, basePath, ch), basePath + ["Dockerfile"]) == Some(File(DockerfileText))
    ensures Lookup(Built(t, basePath, ch), basePath + ["docker-compose.yml"]) == Some(File(ComposeText))
  {
    BuiltIsLayout(t, basePath, ch);
    RootArtefacts(Built(t, basePath, ch), basePath, ch, TextsFor(ch));
  }
}
