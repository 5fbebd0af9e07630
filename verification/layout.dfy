/** The layout a run leaves under the project root, written as a declarative
    table (which node each relative path holds), and the theorem that the
    builder's trace produces exactly that table on a fresh root. */
module Layout {
  import opened JsValues
  import opened FileTree
  import opened Templates
  import opened Scaffold

  /** A project root nothing has been generated under yet. */
  predicate FreshRoot(t: Tree, basePath: Path)
  {
    forall q :: q in t ==> !(basePath < q)
  }

  /** The tree a run leaves behind; a partial one when the run threw. */
  function Built(t: Tree, basePath: Path, ch: Choices): Tree
  {
    Apply(t, CreateMicroservicesStructure(basePath, ch).ops)
  }

  /** The tree the run with file texts `x` leaves behind. */
  function BuiltWith(t: Tree, basePath: Path, ch: Choices, x: FileTexts): Tree
  {
    Apply(t, StructureWith(basePath, ch, x).ops)
  }

  /** The six sub-directories every service unit gets. */
  const StandardDirs: seq<string> := ["controllers", "models", "routes", "middlewares", "config", "services"]

  /** What a service unit's directory holds at `rel`, relative to it, once the
      loop body ran for it, with file texts `x`. When generating `index.js`
      throws, which happens right after `.env` is written, only the skeleton
      and `.env` are there. */
  function ServiceEntry(ch: Choices, x: FileTexts, rel: Path): Option<Node>
  {
    var db := ch.database;
    var tf := ch.testingFramework;
    var ui := ch.uiFramework;
    if rel == [] then Some(Dir)
    else if |rel| == 1 && rel[0] in StandardDirs then Some(Dir)
    else if rel == [".env"] then Some(File(x.env))
    else if x.index.Err? then None
    else if rel == ["index.js"] then Some(File(x.index.value))
    else if rel == ["controllers", "sampleController.js"] then Some(File(x.controller))
    else if rel == ["routes", "sampleRoute.js"] then Some(File(x.route))
    else if rel == ["models", "sampleModel.js"] then
      (if Truthy(db) then Some(File(x.model)) else None)
    else if rel == ["tests"] then
      (if Truthy(tf) then Some(Dir) else None)
    else if rel == ["tests", "sampleController.test.js"] then
      (if Truthy(tf) then Some(File(x.test)) else None)
    else if rel == ["tailwind.config.js"] then
      (if ui == Some("Tailwind CSS") then Some(File(x.tailwindConfig)) else None)
    else if rel == ["styles"] then
      (if ui == Some("Tailwind CSS") then Some(Dir) else None)
    else if rel == ["styles", "tailwind.css"] then
      (if ui == Some("Tailwind CSS") then Some(File(x.tailwindCss)) else None)
    else if rel == ["components"] then
      (if ui == Some("Material-UI") then Some(Dir) else None)
    else if rel == ["components", "SampleButton.js"] then
      (if ui == Some("Material-UI") then Some(File(x.sampleButton)) else None)
    else None
  }

  /** The services whose loop body ran: all of them, or only the first when
      its body threw. */
  function Reached(ch: Choices, x: FileTexts): (r: seq<string>)
    ensures |r| >= 1 && r[0] == Services(ch.architecture)[0]
    ensures forall s :: s in r ==> s in Services(ch.architecture)
  {
    var services := Services(ch.architecture);
    if x.index.Ok? then services else services[..1]
  }

  /** What the project root holds at the non-empty relative path `rel`. */
  function LayoutEntry(ch: Choices, x: FileTexts, rel: Path): Option<Node>
    requires |rel| >= 1
  {
    if rel[0] in Reached(ch, x) then ServiceEntry(ch, x, rel[1..])
    else if x.index.Err? then None
    else if rel == ["common"] then Some(Dir)
    else if rel == ["Dockerfile"] then Some(File(x.dockerfile))
    else if rel == ["docker-compose.yml"] then Some(File(x.compose))
    else None
  }

  // ----- A trace that realises a table -------------------------------------

  /** Every operation of the trace acts below `sp` and agrees with the table:
      directories are created only where the table has one (at most one level
      down), and every file gets the content the table gives it. */
  ghost predicate AgreesWithTable(ops: seq<Op>, sp: Path, ch: Choices, x: FileTexts)
  {
    forall op :: op in ops ==>
      && sp <= op.path
      && match op
         case Mkdir(p) => |p| <= |sp| + 1 && ServiceEntry(ch, x, p[|sp|..]) == Some(Dir)
         case Write(p, c) => ServiceEntry(ch, x, p[|sp|..]) == Some(File(c))
  }

  /** Every entry of the table is produced by some operation of the trace. */
  ghost predicate CoversTable(ops: seq<Op>, sp: Path, ch: Choices, x: FileTexts)
  {
    && (forall r :: ServiceEntry(ch, x, r) == Some(Dir) ==> Mkdir(sp + r) in ops)
    && (forall r :: ServiceEntry(ch, x, r).Some? && ServiceEntry(ch, x, r).value.File? ==>
          Write(sp + r, ServiceEntry(ch, x, r).value.content) in ops)
  }

  /** A path of at most one component creates only itself. */
  lemma ShortCreates(r: Path, rel: Path)
    requires |r| <= 1
    ensures Creates(r, rel) <==> r != [] && rel == r
  {
  }

  /** A trace that agrees with the table and covers it builds exactly the
      table below `sp`, starting from nothing there. */
  lemma TableRealised(t: Tree, sp: Path, ch: Choices, x: FileTexts, ops: seq<Op>, rel: Path)
    requires |sp| > 0
    requires AgreesWithTable(ops, sp, ch, x) && CoversTable(ops, sp, ch, x)
    requires Lookup(t, sp + rel) == None
    ensures Lookup(Apply(t, ops), sp + rel) == ServiceEntry(ch, x, rel)
  {
    var q := sp + rel;
    Below(sp);
    assert forall op :: op in ops ==> op.path == sp + op.path[|sp|..];
    match ServiceEntry(ch, x, rel)
    case None =>
      forall op | op in ops
        ensures !Touches(op, q)
      {
        var r := op.path[|sp|..];
        assert op.path == sp + r;
        if op.Mkdir? {
          ShortCreates(r, rel);
        }
      }
      ApplyUntouched(t, ops, q);
    case Some(Dir) =>
      ApplyCreated(t, ops, q, q);
    case Some(File(c)) =>
      ApplyWritten(t, ops, q, c);
  }

  // ----- The service trace realises the service table ----------------------

  /** The trace of one service's loop body. */
  function ServiceOps(basePath: Path, s: string, ch: Choices, x: FileTexts): seq<Op>
  {
    ServiceSteps(basePath, s, ch, x).ops
  }

  lemma AgreesAppend(a: seq<Op>, b: seq<Op>, sp: Path, ch: Choices, x: FileTexts)
    requires AgreesWithTable(a, sp, ch, x) && AgreesWithTable(b, sp, ch, x)
    ensures AgreesWithTable(a + b, sp, ch, x)
  {
  }

  /** `(sp + r)[|sp|..]` recovers the relative path. */
  lemma Relative(sp: Path, r: Path)
    ensures (sp + r)[|sp|..] == r
  {
  }

  lemma SkeletonAgrees(sp: Path, ch: Choices, x: FileTexts)
    ensures AgreesWithTable(Skeleton(sp), sp, ch, x)
  {
    Relative(sp, []);
    forall d | d in StandardDirs
      ensures AgreesWithTable([Mkdir(sp + [d])], sp, ch, x)
    {
      StandardDirAgrees(sp, d, ch, x);
    }
    assert Skeleton(sp) == [Mkdir(sp)] + [Mkdir(sp + [StandardDirs[0]])] + [Mkdir(sp + [StandardDirs[1]])]
      + [Mkdir(sp + [StandardDirs[2]])] + [Mkdir(sp + [StandardDirs[3]])] + [Mkdir(sp + [StandardDirs[4]])]
      + [Mkdir(sp + [StandardDirs[5]])];
  }

  lemma StandardDirAgrees(sp: Path, d: string, ch: Choices, x: FileTexts)
    requires d in StandardDirs
    ensures AgreesWithTable([Mkdir(sp + [d])], sp, ch, x)
  {
    Relative(sp, [d]);
  }

  lemma ConfigAgrees(sp: Path, ch: Choices, x: FileTexts)
    ensures AgreesWithTable(CreateConfigFiles(sp, ch.database, x), sp, ch, x)
  {
    Relative(sp, [".env"]);
  }

  lemma SamplesAgree(sp: Path, ch: Choices, x: FileTexts)
    requires x.index.Ok?
    ensures AgreesWithTable(SampleSteps(sp, x.index.value, x), sp, ch, x)
  {
    Relative(sp, ["index.js"]);
    Relative(sp, ["controllers", "sampleController.js"]);
    Relative(sp, ["routes", "sampleRoute.js"]);
  }

  lemma ModelAgrees(sp: Path, ch: Choices, x: FileTexts)
    requires x.index.Ok?
    ensures AgreesWithTable(ModelSteps(sp, ch.database, x), sp, ch, x)
  {
    Relative(sp, ["models", "sampleModel.js"]);
  }

  lemma TestsAgree(sp: Path, ch: Choices, x: FileTexts)
    requires x.index.Ok?
    ensures AgreesWithTable(TestSteps(sp, ch.testingFramework, x), sp, ch, x)
  {
    Relative(sp, ["tests"]);
    Relative(sp, ["tests", "sampleController.test.js"]);
  }

  lemma UIAgrees(sp: Path, ch: Choices, x: FileTexts)
    requires x.index.Ok?
    ensures AgreesWithTable(UISteps(sp, ch.uiFramework, x), sp, ch, x)
  {
    if ch.uiFramework == Some("Tailwind CSS") {
      TailwindAgrees(sp, ch, x);
    } else if ch.uiFramework == Some("Material-UI") {
      MaterialAgrees(sp, ch, x);
    } else {
      assert UISteps(sp, ch.uiFramework, x) == [];
    }
  }

  lemma TailwindAgrees(sp: Path, ch: Choices, x: FileTexts)
    requires x.index.Ok? && ch.uiFramework == Some("Tailwind CSS")
    ensures AgreesWithTable(UISteps(sp, ch.uiFramework, x), sp, ch, x)
  {
    Relative(sp, ["tailwind.config.js"]);
    Relative(sp, ["styles"]);
    Relative(sp, ["styles", "tailwind.css"]);
  }

  lemma MaterialAgrees(sp: Path, ch: Choices, x: FileTexts)
    requires x.index.Ok? && ch.uiFramework == Some("Material-UI")
    ensures AgreesWithTable(UISteps(sp, ch.uiFramework, x), sp, ch, x)
  {
    Relative(sp, ["components"]);
    Relative(sp, ["components", "SampleButton.js"]);
  }

  /** Every operation of a service's trace agrees with the table. */
  lemma ServiceAgrees(basePath: Path, s: string, ch: Choices, x: FileTexts)
    ensures AgreesWithTable(ServiceOps(basePath, s, ch, x), basePath + [s], ch, x)
  {
    var sp := basePath + [s];
    SkeletonAgrees(sp, ch, x);
    ConfigAgrees(sp, ch, x);
    var setup := Skeleton(sp) + CreateConfigFiles(sp, ch.database, x);
    AgreesAppend(Skeleton(sp), CreateConfigFiles(sp, ch.database, x), sp, ch, x);
    if x.index.Ok? {
      var index := x.index.value;
      SamplesAgree(sp, ch, x);
      ModelAgrees(sp, ch, x);
      TestsAgree(sp, ch, x);
      UIAgrees(sp, ch, x);
      AgreesAppend(setup, SampleSteps(sp, index, x), sp, ch, x);
      AgreesAppend(setup + SampleSteps(sp, index, x), ModelSteps(sp, ch.database, x), sp, ch, x);
      AgreesAppend(setup + SampleSteps(sp, index, x) + ModelSteps(sp, ch.database, x),
                   TestSteps(sp, ch.testingFramework, x), sp, ch, x);
      AgreesAppend(setup + SampleSteps(sp, index, x) + ModelSteps(sp, ch.database, x)
                     + TestSteps(sp, ch.testingFramework, x),
                   UISteps(sp, ch.uiFramework, x), sp, ch, x);
      assert ServiceOps(basePath, s, ch, x) == CompletedSteps(sp, index, ch, x);
    }
  }

  /** The directories of the table. */
  lemma DirEntries(ch: Choices, x: FileTexts, r: Path)
    ensures ServiceEntry(ch, x, r) == Some(Dir) <==>
      || r == []
      || (|r| == 1 && r[0] in StandardDirs)
      || (x.index.Ok? && r == ["tests"] && Truthy(ch.testingFramework))
      || (x.index.Ok? && r == ["styles"] && ch.uiFramework == Some("Tailwind CSS"))
      || (x.index.Ok? && r == ["components"] && ch.uiFramework == Some("Material-UI"))
  {
  }

  /** The files of the table, with their contents. */
  lemma FileEntries(ch: Choices, x: FileTexts, r: Path, c: string)
    ensures ServiceEntry(ch, x, r) == Some(File(c)) <==>
      || (r == [".env"] && c == x.env)
      || (x.index.Ok? && r == ["index.js"] && c == x.index.value)
      || (x.index.Ok? && r == ["controllers", "sampleController.js"] && c == x.controller)
      || (x.index.Ok? && r == ["routes", "sampleRoute.js"] && c == x.route)
      || (x.index.Ok? && r == ["models", "sampleModel.js"] && Truthy(ch.database) && c == x.model)
      || (x.index.Ok? && r == ["tests", "sampleController.test.js"] && Truthy(ch.testingFramework)
          && c == x.test)
      || (x.index.Ok? && r == ["tailwind.config.js"] && ch.uiFramework == Some("Tailwind CSS")
          && c == x.tailwindConfig)
      || (x.index.Ok? && r == ["styles", "tailwind.css"] && ch.uiFramework == Some("Tailwind CSS")
          && c == x.tailwindCss)
      || (x.index.Ok? && r == ["components", "SampleButton.js"] && ch.uiFramework == Some("Material-UI")
          && c == x.sampleButton)
  {
  }

  lemma SkeletonCovers(sp: Path, r: Path)
    requires r == [] || (|r| == 1 && r[0] in StandardDirs)
    ensures Mkdir(sp + r) in Skeleton(sp)
  {
    if r == [] {
      assert sp + r == sp;
    } else {
      assert r == [r[0]];
    }
  }

  /** Every directory of the table is created by the service's trace. */
  lemma ServiceCoversDirs(basePath: Path, s: string, ch: Choices, x: FileTexts, r: Path)
    requires ServiceEntry(ch, x, r) == Some(Dir)
    ensures Mkdir(basePath + [s] + r) in ServiceOps(basePath, s, ch, x)
  {
    var sp := basePath + [s];
    var ops := ServiceOps(basePath, s, ch, x);
    DirEntries(ch, x, r);
    if r == [] || (|r| == 1 && r[0] in StandardDirs) {
      SkeletonCovers(sp, r);
      if x.index.Ok? {
        assert ops == CompletedSteps(sp, x.index.value, ch, x);
      }
    } else {
      assert ops == CompletedSteps(sp, x.index.value, ch, x);
      if r == ["tests"] {
        assert Mkdir(sp + r) in TestSteps(sp, ch.testingFramework, x);
      } else {
        assert Mkdir(sp + r) in UISteps(sp, ch.uiFramework, x);
      }
    }
  }

  /** Every file of the table is written, with its content, by the service's
      trace. */
  lemma ServiceCoversFiles(basePath: Path, s: string, ch: Choices, x: FileTexts, r: Path, c: string)
    requires ServiceEntry(ch, x, r) == Some(File(c))
    ensures Write(basePath + [s] + r, c) in ServiceOps(basePath, s, ch, x)
  {
    var sp := basePath + [s];
    var ops := ServiceOps(basePath, s, ch, x);
    FileEntries(ch, x, r, c);
    if r == [".env"] {
      assert Write(sp + r, c) in CreateConfigFiles(sp, ch.database, x);
      if x.index.Ok? {
        assert ops == CompletedSteps(sp, x.index.value, ch, x);
      }
    } else {
      var index := x.index.value;
      assert ops == CompletedSteps(sp, index, ch, x);
      if r in [["index.js"], ["controllers", "sampleController.js"], ["routes", "sampleRoute.js"]] {
        assert Write(sp + r, c) in SampleSteps(sp, index, x);
      } else if r == ["models", "sampleModel.js"] {
        assert Write(sp + r, c) in ModelSteps(sp, ch.database, x);
      } else if r == ["tests", "sampleController.test.js"] {
        assert Write(sp + r, c) in TestSteps(sp, ch.testingFramework, x);
      } else {
        assert Write(sp + r, c) in UISteps(sp, ch.uiFramework, x);
      }
    }
  }

  lemma ServiceCovers(basePath: Path, s: string, ch: Choices, x: FileTexts)
    ensures CoversTable(ServiceOps(basePath, s, ch, x), basePath + [s], ch, x)
  {
    forall r | ServiceEntry(ch, x, r) == Some(Dir)
      ensures Mkdir(basePath + [s] + r) in ServiceOps(basePath, s, ch, x)
    {
      ServiceCoversDirs(basePath, s, ch, x, r);
    }
    forall r | ServiceEntry(ch, x, r).Some? && ServiceEntry(ch, x, r).value.File?
      ensures Write(basePath + [s] + r, ServiceEntry(ch, x, r).value.content) in ServiceOps(basePath, s, ch, x)
    {
      ServiceCoversFiles(basePath, s, ch, x, r, ServiceEntry(ch, x, r).value.content);
    }
  }

  /** One service's loop body, on a service directory with nothing in it,
      leaves exactly the service table there. */
  lemma ServiceBuilt(t: Tree, basePath: Path, s: string, ch: Choices, x: FileTexts, rel: Path)
    requires Lookup(t, basePath + [s] + rel) == None
    ensures Lookup(Apply(t, ServiceOps(basePath, s, ch, x)), basePath + [s] + rel) == ServiceEntry(ch, x, rel)
  {
    ServiceAgrees(basePath, s, ch, x);
    ServiceCovers(basePath, s, ch, x);
    TableRealised(t, basePath + [s], ch, x, ServiceOps(basePath, s, ch, x), rel);
  }

  // ----- The loop and the root artefacts -----------------------------------

  /** An operation touches a path below `basePath` only within the same
      child of `basePath`. */
  lemma SameChild(basePath: Path, op: Op, q: Path)
    requires |q| > |basePath| && |op.path| > |basePath|
    ensures Touches(op, q) ==> q[|basePath|] == op.path[|basePath|]
  {
  }

  /** A service's loop body leaves every other child of the root alone. */
  lemma OtherServiceUntouched(t: Tree, basePath: Path, s: string, ch: Choices, x: FileTexts, q: Path)
    requires |q| > |basePath| && q[|basePath|] != s
    ensures Lookup(Apply(t, ServiceOps(basePath, s, ch, x)), q) == Lookup(t, q)
  {
    forall op | op in ServiceOps(basePath, s, ch, x)
      ensures !Touches(op, q)
    {
      PrefixAgrees(basePath + [s], op.path, |basePath|);
      SameChild(basePath, op, q);
    }
    ApplyUntouched(t, ServiceOps(basePath, s, ch, x), q);
  }

  /** The loop leaves every child of the root that is not a service alone. */
  lemma LoopUntouched(t: Tree, basePath: Path, services: seq<string>, ch: Choices, x: FileTexts, q: Path)
    requires |q| > |basePath| && q[|basePath|] !in services
    ensures Lookup(Apply(t, ForEachService(basePath, services, ch, x).ops), q) == Lookup(t, q)
  {
    var ops := ForEachService(basePath, services, ch, x).ops;
    forall op | op in ops
      ensures !Touches(op, q)
    {
      SameChild(basePath, op, q);
    }
    ApplyUntouched(t, ops, q);
  }

  /** The rest of a list without repetitions has none either, and does not
      hold its head. */
  lemma TailDistinct(services: seq<string>)
    requires |services| > 0
    requires forall i, j :: 0 <= i < j < |services| ==> services[i] != services[j]
    ensures forall i, j :: 0 <= i < j < |services[1..]| ==> services[1..][i] != services[1..][j]
    ensures forall s :: s in services <==> s == services[0] || s in services[1..]
    ensures services[0] !in services[1..]
  {
    assert services == [services[0]] + services[1..];
  }

  /** One turn of the loop. */
  lemma LoopUnfold(basePath: Path, services: seq<string>, ch: Choices, x: FileTexts)
    requires |services| > 0
    ensures ForEachService(basePath, services, ch, x).ops ==
              if x.index.Ok?
              then ServiceOps(basePath, services[0], ch, x) + ForEachService(basePath, services[1..], ch, x).ops
              else ServiceOps(basePath, services[0], ch, x)
  {
  }

  /** The loop's first service gets its table and keeps it. */
  lemma FirstServiceBuilt(t: Tree, basePath: Path, services: seq<string>, ch: Choices, x: FileTexts, rel: Path)
    requires |rel| >= 1 && |services| > 0 && services[0] == rel[0]
    requires forall i, j :: 0 <= i < j < |services| ==> services[i] != services[j]
    requires Lookup(t, basePath + rel) == None
    ensures Lookup(Apply(t, ForEachService(basePath, services, ch, x).ops), basePath + rel) == ServiceEntry(ch, x, rel[1..])
  {
    var q := basePath + rel;
    var first := ServiceOps(basePath, services[0], ch, x);
    var rest := services[1..];
    LoopUnfold(basePath, services, ch, x);
    assert q == basePath + [services[0]] + rel[1..];
    ServiceBuilt(t, basePath, services[0], ch, x, rel[1..]);
    if x.index.Ok? {
      assert q[|basePath|] == rel[0];
      ApplyAppend(t, first, ForEachService(basePath, rest, ch, x).ops);
      TailDistinct(services);
      LoopUntouched(Apply(t, first), basePath, rest, ch, x, q);
    }
  }

  /** The service loop leaves, below each service it reached, exactly the
      service table, and nothing below any other child of the root. */
  lemma {:induction false} LoopBuilt(t: Tree, basePath: Path, services: seq<string>, ch: Choices, x: FileTexts,
                                     rel: Path)
    requires |rel| >= 1
    requires forall i, j :: 0 <= i < j < |services| ==> services[i] != services[j]
    requires Lookup(t, basePath + rel) == None
    ensures Lookup(Apply(t, ForEachService(basePath, services, ch, x).ops), basePath + rel) ==
              (if rel[0] in services && (x.index.Ok? || rel[0] == services[0])
               then ServiceEntry(ch, x, rel[1..]) else None)
    decreases |services|
  {
    var q := basePath + rel;
    assert q[|basePath|] == rel[0];
    if |services| > 0 {
      var first := ServiceOps(basePath, services[0], ch, x);
      var rest := services[1..];
      LoopUnfold(basePath, services, ch, x);
      if services[0] == rel[0] {
        FirstServiceBuilt(t, basePath, services, ch, x, rel);
      } else {
        OtherServiceUntouched(t, basePath, services[0], ch, x, q);
        if x.index.Ok? {
          ApplyAppend(t, first, ForEachService(basePath, rest, ch, x).ops);
          TailDistinct(services);
          LoopBuilt(Apply(t, first), basePath, rest, ch, x, rel);
        }
      }
    }
  }

  /** What the root steps leave at `basePath + rel`, given what was there:
      `common/` where nothing was, the two Docker files, and nothing else. */
  function RootView(before: Option<Node>, rel: Path, x: FileTexts): Option<Node>
  {
    if rel == ["common"] then (if before == None then Some(Dir) else before)
    else if rel == ["Dockerfile"] then Some(File(x.dockerfile))
    else if rel == ["docker-compose.yml"] then Some(File(x.compose))
    else before
  }

  /** The root steps act on the project root as `RootView` says. */
  lemma RootBuilt(t: Tree, basePath: Path, rel: Path, x: FileTexts)
    requires |rel| >= 1
    ensures Lookup(Apply(t, RootSteps(basePath, x)), basePath + rel) == RootView(Lookup(t, basePath + rel), rel, x)
  {
    var q := basePath + rel;
    var ops := RootSteps(basePath, x);
    Rebase(basePath, rel, ["common"]);
    Rebase(basePath, rel, ["Dockerfile"]);
    Rebase(basePath, rel, ["docker-compose.yml"]);
    ShortCreates(["common"], rel);
    assert ops[0] == Mkdir(basePath + ["common"]);
    if rel == ["common"] {
      match Lookup(t, q)
      case None => ApplyCreated(t, ops, q, q);
      case Some(Dir) => ApplyCreated(t, ops, q, q);
      case Some(File(c)) => ApplyWritten(t, ops, q, c);
    } else if rel == ["Dockerfile"] {
      ApplyWritten(t, ops, q, x.dockerfile);
    } else if rel == ["docker-compose.yml"] {
      ApplyWritten(t, ops, q, x.compose);
    } else {
      ApplyUntouched(t, ops, q);
    }
  }

  /** A completed run is the loop's tree seen through the root steps. */
  lemma CompletedBuilt(t: Tree, basePath: Path, ch: Choices, x: FileTexts, rel: Path)
    requires x.index.Ok? && |rel| >= 1
    ensures Lookup(BuiltWith(t, basePath, ch, x), basePath + rel) ==
              RootView(Lookup(Apply(t, ForEachService(basePath, Services(ch.architecture), ch, x).ops), basePath + rel),
                       rel, x)
  {
    var loop := ForEachService(basePath, Services(ch.architecture), ch, x).ops;
    StructureUnfold(basePath, ch, x);
    ApplyAppend(t, loop, RootSteps(basePath, x));
    RootBuilt(Apply(t, loop), basePath, rel, x);
  }

  /** The run is the loop, followed by the root steps when the loop completed. */
  lemma StructureUnfold(basePath: Path, ch: Choices, x: FileTexts)
    ensures StructureWith(basePath, ch, x).ops ==
              if x.index.Ok?
              then ForEachService(basePath, Services(ch.architecture), ch, x).ops + RootSteps(basePath, x)
              else ForEachService(basePath, Services(ch.architecture), ch, x).ops
  {
  }

  /** Which children of the root the loop reached; none of them is named
      like a shared artefact. */
  lemma ReachedMembers(ch: Choices, x: FileTexts, name: string)
    ensures name in Reached(ch, x) <==>
              name in Services(ch.architecture) && (x.index.Ok? || name == Services(ch.architecture)[0])
    ensures name in Services(ch.architecture) ==> name !in ["common", "Dockerfile", "docker-compose.yml"]
  {
  }

  /** On a fresh project root, the tree a run with texts `x` leaves below the
      root is exactly the layout table, whichever way the run ended. */
  lemma BuiltWithLayout(t: Tree, basePath: Path, ch: Choices, x: FileTexts, rel: Path)
    requires FreshRoot(t, basePath) && |rel| >= 1
    ensures Lookup(BuiltWith(t, basePath, ch, x), basePath + rel) == LayoutEntry(ch, x, rel)
  {
    var q := basePath + rel;
    assert basePath < q by {
      assert q[..|basePath|] == basePath;
    }
    var services := Services(ch.architecture);
    var loop := ForEachService(basePath, services, ch, x).ops;
    StructureUnfold(basePath, ch, x);
    ReachedMembers(ch, x, rel[0]);
    LoopBuilt(t, basePath, services, ch, x, rel);
    if x.index.Ok? {
      CompletedBuilt(t, basePath, ch, x, rel);
      var before := Lookup(Apply(t, loop), q);
      if rel[0] in services {
        assert rel != ["common"] && rel != ["Dockerfile"] && rel != ["docker-compose.yml"];
        assert RootView(before, rel, x) == before;
      } else {
        assert before == None;
      }
    }
  }

  /** The main theorem: on a fresh project root, the tree the builder leaves
      below the root is exactly the layout table for the generated texts,
      whichever way the run ended. */
  lemma BuiltLayout(t: Tree, basePath: Path, ch: Choices, rel: Path)
    requires FreshRoot(t, basePath) && |rel| >= 1
    ensures Lookup(Built(t, basePath, ch), basePath + rel) == LayoutEntry(ch, TextsFor(ch), rel)
  {
    BuiltWithLayout(t, basePath, ch, TextsFor(ch), rel);
  }
}
