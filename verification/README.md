# Scaffold layout builder — a Dafny model

This project models the project generator of the "systeme-design-helper" VS Code
extension (`extension.js`). Given the user's prompt answers, it builds a project
tree, in this order:

- one directory per service unit: `service1` and `service2` for the
  microservices architecture, `monolith` otherwise;
- in each unit, six standard sub-directories, a `.env` file, a generated
  `index.js`, a sample controller and a sample route;
- optionally a sample model, a sample test and UI framework files;
- after the loop, a shared `common/` directory, a `Dockerfile` and a
  `docker-compose.yml` at the project root.

It then runs `npm install` for the picked packages.

The model is layered as follows.

- `js_values.dfy` (`JsValues`): `undefined` as `Option.None`, results of code
  that may throw, and JavaScript truthiness of an optional string.
- `text.dfy` (`Text`): `Array.prototype.join` for one separator, and `Split`
  as its reference inverse, with both round trips.
- `file_tree.dfy` (`FileTree`): the filesystem as a map from paths to nodes.
  It has `mkdir -p` and whole-file writes, and a run of the builder is a trace
  of those calls applied in order. It also holds generic lemmas about which
  paths a trace touches.
- `templates.dfy` (`Templates`): every text the builder writes, transcribed
  from the template literals, and the generator functions. `index.js` is built
  line by line, and its lines are characterised.
- `scaffold.dfy` (`Scaffold`): `createMicroservicesStructure` and its helpers
  as a trace of filesystem calls plus how the run ended.
  - The trace is written against a record of file texts (`FileTexts`).
    `TextsFor` says what the template functions put in it. Generating
    `index.js` is kept as a `Result`, because it throws when the middleware
    list is `undefined`.
- `layout.dfy` (`Layout`): the layout as a declarative table, which says what
  node each relative path holds. The main theorem `BuiltLayout` states that on
  a project root with nothing below it, the tree the run leaves is exactly that
  table, whether the run completed or threw.
- `properties.dfy` (`Properties`): the builder's promises, each read off the
  layout theorem. They cover:
  - the top-level directories, each unit's standard contents and `.env`;
  - the model file, the test files and the three UI outcomes;
  - the fixed text each generated file holds;
  - the root artefacts and the partial tree left by a thrown run;
  - what the run leaves alone outside the project root;
  - that theme and packages do not influence the run.
- `installer.dfy` (`Installer`): the command `installPackages` issues, its
  guard, and how its promise settles.

Behaviour of `extension.js` that the model keeps, including where it departs
from what the prompts suggest:

- A dismissed middleware prompt is not skipped. `middlewares.map` throws a
  `TypeError` on `undefined`. The first service unit is then left with its
  directories and `.env` only, and no root artefacts are made.
- Choosing MySQL (or any other truthy database answer without a template)
  still writes `models/sampleModel.js`, with empty content. The file is not
  absent.
- Other dismissed prompts do not abort the run. They skip the related
  artefacts (database, testing, UI) or select `monolith` (architecture).
- `.env` holds a comment line before `PORT=3000` and
  `DB_URL=YOUR_DATABASE_URL_HERE`.
- Packages and middlewares are ordered lists. Duplicates are kept, as in the
  code, where they come from quick picks.

## Model

| member | source | states |
|---|---|---|
| `Text.SplitJoin` | extension.js:181-182 | joining separator-free pieces and splitting again gives back the pieces |
| `Text.JoinSplit` | extension.js:307 | splitting a string and joining the pieces gives back the string |
| `FileTree.MkdirP` | extension.js:84-90 | recursive `mkdirSync` creates exactly the missing prefixes of the path, as directories, and keeps every existing entry |
| `FileTree.WriteFile` | extension.js:97 | `writeFileSync` leaves exactly the given content at the path and changes nothing else |
| `Templates.DbConnection` | extension.js:174-179 | the connection snippet is non-empty exactly for MongoDB and PostgreSQL |
| `Templates.ImportLines` | extension.js:181 | one `require` line per middleware, same count, same order, duplicates kept |
| `Templates.UsageLines` | extension.js:182 | one `app.use` line per middleware, same count, same order, duplicates kept |
| `Templates.GenerateIndexContent` | extension.js:173-199 | generating `index.js` succeeds exactly when the middleware list is present; otherwise it throws the `.map`-on-`undefined` TypeError |
| `Templates.IndexLines` | extension.js:181-198 | the lines of `index.js` are the fixed head, the import lines, the database snippet's lines, the fixed middle, the usage lines paired with the imports, and the fixed tail; the theme plays no part |
| `Templates.IndexDatabaseLines` | extension.js:174-190 | the database lines of `index.js`, between the imports and the fixed middle, are the mongoose snippet's lines for MongoDB, the `pg` snippet's lines for PostgreSQL, and one empty line otherwise |
| `Templates.TailwindCssLines` | extension.js:147 | the Tailwind stylesheet's lines are exactly `@tailwind base;`, `@tailwind components;` and `@tailwind utilities;` |
| `Templates.GenerateSampleModel` | extension.js:219-239 | the model text is non-empty exactly for MongoDB and PostgreSQL (empty for MySQL and anything else) |
| `Templates.GenerateTestFile` | extension.js:241-271 | the test text is non-empty exactly for Mocha and Jest |
| `Scaffold.Services` | extension.js:80 | there is at least one service unit and no two share a name |
| `Scaffold.TextsFor` | extension.js:93-113 | the generated `index.js` exists exactly when middlewares were given, else the TypeError; model and test texts are empty unless a template exists for the choice |
| `Scaffold.ServiceSteps` | extension.js:83-119 | one loop turn completes exactly when `index.js` could be generated; if not, it throws that error after the seven directories and `.env`; every call stays inside the service directory |
| `Scaffold.ForEachService` | extension.js:82-120 | the loop completes exactly when there are no units or `index.js` could be generated; every call lies below the root inside one of the units |
| `Scaffold.StructureWith` | extension.js:79-127 | every call is strictly below the root; `common`, `Dockerfile` and `docker-compose.yml` are each acted on once if the loop completed and never if it threw; exactly the last three calls are outside the units |
| `Scaffold.CreateMicroservicesStructure` | extension.js:79-127 | the run completes exactly when the middleware list is present, and otherwise ends with the `.map` TypeError |
| `Layout.ServiceBuilt` | extension.js:83-119 | one loop turn, on an empty unit directory, leaves exactly the unit's table there |
| `Layout.LoopBuilt` | extension.js:82-120 | after the loop, each unit it reached holds its table, and nothing exists under any other child of the root |
| `Layout.RootBuilt` | extension.js:122-126 | the root steps make `common/` where nothing was, write both Docker files and change nothing else |
| `Layout.BuiltWithLayout` | extension.js:79-127 | on a fresh root, the tree left below the root is exactly the layout table, for any file texts |
| `Layout.BuiltLayout` | extension.js:79-127 | on a fresh root, the tree the builder leaves below the root is exactly the layout table for the generated texts, whether the run completed or threw |
| `Properties.BuiltIsLayout` | extension.js:79-127 | the builder's tree satisfies the layout at every path below the root |
| `Properties.TopLevelDirectories` | extension.js:80-123 | after a completed run the directories directly under the root are `common` plus `service1` and `service2` for Microservices, else `monolith` |
| `Properties.StandardContents` | extension.js:84-103 | every unit of a completed run holds the six standard directories, `.env`, `index.js`, the sample controller and the sample route with their texts |
| `Properties.EnvFile` | extension.js:93 | every unit the loop reached has `.env`, even when the run threw right after it |
| `Properties.ModelFile` | extension.js:106-108 | the sample model exists exactly when the database answer is truthy, holding the generated model text |
| `Properties.TestFiles` | extension.js:111-114 | `tests/` and the sample test exist exactly when the testing answer is truthy |
| `Properties.EnvBuilt` | extension.js:165-171 | every unit the builder reached holds `.env` with the fixed configuration text, whatever the database |
| `Properties.ModelBuilt` | extension.js:106-108 | the builder's sample model is the Mongoose schema for MongoDB, the `pg` client for PostgreSQL, an empty file for any other truthy answer (MySQL included) and absent for a falsy one |
| `Properties.TestBuilt` | extension.js:110-114 | the builder's sample test is the Mocha suite, the Jest suite, an empty file for any other truthy answer, and absent for a falsy one |
| `Properties.SamplesBuilt` | extension.js:201-217 | every unit of a completed run holds the sample controller text at `controllers/sampleController.js` and the sample route text at `routes/sampleRoute.js` |
| `Properties.UIBuilt` | extension.js:129-163 | Tailwind CSS gives the Tailwind configuration text and a stylesheet made of the three directives, Material-UI gives the sample button text, and each is absent for any other answer |
| `Properties.DockerBuilt` | extension.js:273-302 | a completed run leaves the Dockerfile text at `Dockerfile` and the compose text at `docker-compose.yml` |
| `Properties.UIFiles` | extension.js:129-163 | exactly one of three UI outcomes: the Tailwind config and stylesheet, the Material-UI button, or none of the five UI entries |
| `Properties.RootArtefacts` | extension.js:122-126 | a completed run leaves `common/`, the Dockerfile and the compose file at the root |
| `Properties.ThrownRun` | extension.js:93-97 | when generating `index.js` throws, only the first unit's directory, its six sub-directories and its `.env` exist below the root |
| `Properties.OutsideRoot` | extension.js:83-84 | outside the root nothing changes, except that missing ancestors of the root are created as directories |
| `Properties.LoopIgnoresThemeAndPackages` | extension.js:82-120 | the loop's calls do not depend on the theme or package answers |
| `Properties.ThemeAndPackagesIgnored` | extension.js:79-127 | the builder's run is the same whatever theme and packages were picked |
| `Installer.InstallCommand` | extension.js:304-308 | a command is issued exactly when packages were picked (present and non-empty); it runs in the project root and starts with `npm install ` |
| `Installer.CommandWords` | extension.js:307-308 | the words of the command line are `npm`, `install` and the picked packages in order |
| `Installer.Settle` | extension.js:308-315 | the promise is rejected exactly when npm reported an error, with a message that carries npm's standard error after a fixed prefix |

## Left out

- The VS Code host is not modelled: command registration, the folder dialog,
  the quick-pick prompts (`activate`), the success message, the drawing-board
  webview (`getWebviewContent`) and `deactivate`. Prompt answers are inputs.
- Running `npm` is not modelled. `exec` becomes the command it is given and a
  flag saying whether npm reported an error. Its standard output and the
  promise machinery are left out.
- Filesystem failures are left out: creating a directory over an existing file,
  writing where a parent is missing, permissions, full disks. The model's
  `mkdir -p` keeps an existing entry and a write replaces one.
- `path.join` normalisation is left out. Paths are sequences of components,
  and the root is taken as given.
- The order of the host's calls is left out: `installPackages` runs after
  `createMicroservicesStructure` and never runs if the latter throws.
- `Scaffold.CreateMicroservicesStructure`: its contract states only how the run
  ends. Its body is `StructureWith` for the generated texts, and the call
  placement facts are stated there, for any texts.
- `Scaffold.TextsFor`: its contract states the `index.js` outcome and when
  the model and test texts are empty. Which fixed text lands at which path is
  stated end to end by `Properties.EnvBuilt`, `Properties.SamplesBuilt`,
  `Properties.ModelBuilt`, `Properties.TestBuilt`, `Properties.UIBuilt` and
  `Properties.DockerBuilt`.
- `Templates.DbConnection`: its contract states only when the snippet is
  empty. Which snippet each database gets is stated by
  `Templates.IndexDatabaseLines`.
- `Templates.IndexLines` requires middleware names without line breaks; the
  picks offered have none.
- `Installer.CommandWords` requires package names without spaces; the picks
  offered have none.
