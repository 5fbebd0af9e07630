/** The template library of the scaffold builder: pure functions from the
    user's choices to the text of each generated file. Fixed file bodies are
    named string constants; the builder's decisions are about which of them
    lands where. */
module Templates {
  import opened JsValues
  import opened Text

  /** `.env` of every service: a fixed port and a placeholder database URL. */
  const EnvText: string := "# Environment Variables\nPORT=3000\nDB_URL=YOUR_DATABASE_URL_HERE\n"

  const ControllerText: string :=
    "\nexports.getSample = (req, res) => {\n    res.send('Sample data');\n};"

  const RouteText: string :=
    "\nconst express = require('express');\nconst router = express.Router();\n"
    + "const sampleController = require('../controllers/sampleController');\n\n"
    + "router.get('/sample', sampleController.getSample);\n\nmodule.exports = router;"

  const MongoModelText: string :=
    "\nconst mongoose = require('mongoose');\n\nconst SampleSchema = new mongoose.Schema({\n"
    + "    name: String,\n    age: Number\n});\n\n"
    + "module.exports = mongoose.model('Sample', SampleSchema);"

  const PgModelText: string :=
    "\nconst { Client } = require('pg');\n\n"
    + "const client = new Client({ connectionString: process.env.DB_URL });\nclient.connect();\n"

  const MochaTestText: string :=
    "\nconst request = require('supertest');\nconst app = require('../index');\n\n"
    + "describe('GET /api/sample', () => {\n    it('should return sample data', (done) => {\n"
    + "        request(app)\n            .get('/api/sample')\n            .expect(200)\n"
    + "            .expect('Content-Type', /json/)\n            .end((err, res) => {\n"
    + "                if (err) return done(err);\n                done();\n            });\n"
    + "    });\n});"

  const JestTestText: string :=
    "\nconst request = require('supertest');\nconst app = require('../index');\n\n"
    + "test('GET /api/sample', async () => {\n"
    + "    const response = await request(app).get('/api/sample');\n"
    + "    expect(response.statusCode).toBe(200);\n"
    + "    expect(response.headers['content-type']).toEqual(expect.stringContaining('json'));\n});"

  const TailwindConfigText: string :=
    "module.exports = {\n            purge: ['./views/**/*.html', './src/**/*.{js,jsx,ts,tsx}'],\n"
    + "            darkMode: false,\n            theme: {\n                extend: {},\n            },\n"
    + "            variants: {\n                extend: {},\n            },\n            plugins: [],\n        };"

  /** The Tailwind stylesheet: exactly the three `@tailwind` directives,
      written one piece per line. */
  const TailwindCssText: string :=
    "@tailwind base;\n" + "@tailwind components;\n" + "@tailwind utilities;"

  const SampleButtonText: string :=
    "import React from 'react';\nimport Button from '@material-ui/core/Button';\n\n"
    + "export default function SampleButton() {\n"
    + "    return <Button variant=\"contained\" color=\"primary\">Sample Button</Button>;\n};"

  const DockerfileText: string :=
    "\nFROM node:14\n\nWORKDIR /usr/src/app\n\nCOPY package*.json ./ \nRUN npm install\n\n"
    + "COPY . .\n\nEXPOSE 3000\nCMD [\"node\", \"index.js\"]\n"

  const ComposeText: string :=
    "\nversion: '3'\nservices:\n  app:\n    build: .\n    ports:\n      - \"3000:3000\"\n"
    + "    env_file:\n      - .env\n"

  const MongoConnectionText: string :=
    "const mongoose = require('mongoose');\nmongoose.connect(process.env.DB_URL);\n"

  const PgConnectionText: string :=
    "const { Client } = require('pg');\n"
    + "const client = new Client({ connectionString: process.env.DB_URL });\nclient.connect();\n"

  /** What `.map` on `undefined` throws. */
  const UndefinedMapError: JsError := TypeError("Cannot read properties of undefined (reading 'map')")

  /** The database connection snippet spliced into `index.js`: only MongoDB and
      PostgreSQL have one. */
  function DbConnection(database: Option<string>): (r: string)
    ensures r != "" <==> database == Some("MongoDB") || database == Some("PostgreSQL")
  {
    if database == Some("MongoDB") then MongoConnectionText
    else if database == Some("PostgreSQL") then PgConnectionText
    else ""
  }

  /** The `require` line declaring one middleware. */
  function ImportLine(m: string): string
  {
    "const " + m + " = require('" + m + "');"
  }

  /** The `app.use` line mounting one middleware. */
  function UsageLine(m: string): string
  {
    "app.use(" + m + "());"
  }

  /** `middlewares.map(m => ImportLine(m))`. */
  function ImportLines(ms: seq<string>): (r: seq<string>)
    ensures |r| == |ms|
    ensures forall i :: 0 <= i < |ms| ==> r[i] == ImportLine(ms[i])
    decreases |ms|
  {
    if |ms| == 0 then [] else [ImportLine(ms[0])] + ImportLines(ms[1..])
  }

  /** `middlewares.map(m => UsageLine(m))`. */
  function UsageLines(ms: seq<string>): (r: seq<string>)
    ensures |r| == |ms|
    ensures forall i :: 0 <= i < |ms| ==> r[i] == UsageLine(ms[i])
    decreases |ms|
  {
    if |ms| == 0 then [] else [UsageLine(ms[0])] + UsageLines(ms[1..])
  }

  /** The fixed lines of `index.js` before the middleware imports. */
  const IndexHead: seq<string> := [
    "",
    "const express = require('express');",
    "const app = express();",
    "const PORT = process.env.PORT || 3000;",
    ""
  ]

  /** The fixed lines between the database snippet and the middleware usage. */
  const IndexMiddle: seq<string> := ["", "app.use(express.json());"]

  /** The fixed lines after the middleware usage. The two long lines are
      written as two literals each: the verifier checks that a short literal
      holds no line break, but gives up on a long one. */
  const IndexTail: seq<string> := [
    "app.use('/api', " + "require('./routes/sampleRoute'));",
    "",
    "app.listen(PORT, () => {",
    "    console.log(`Service " + "running on port ${PORT}`);",
    "});"
  ]

  /** `generateIndexContent(theme, database, middlewares)`: the service entry
      point, laid out line by line as in the template literal, with the import
      block, the database snippet and the usage block spliced in. The theme is
      accepted and ignored. When `middlewares` is `undefined` the first `.map`
      throws. */
  function GenerateIndexContent(theme: Option<string>, database: Option<string>,
                                middlewares: Option<seq<string>>): (r: Result<string, JsError>)
    ensures r.Ok? <==> middlewares.Some?
    ensures r.Err? ==> r.error == UndefinedMapError
  {
    match middlewares
    case None => Err(UndefinedMapError)
    case Some(ms) =>
      var imports := Join(ImportLines(ms), '\n');
      var usage := Join(UsageLines(ms), '\n');
      Ok(Join(IndexHead + [imports, DbConnection(database)] + IndexMiddle + [usage] + IndexTail, '\n'))
  }

  /** `generateSampleController()`. */
  function GenerateSampleController(): string
  {
    ControllerText
  }

  /** `generateSampleRoute()`. */
  function GenerateSampleRoute(): string
  {
    RouteText
  }

  /** `generateSampleModel(database)`: a template only for MongoDB and
      PostgreSQL; any other value, MySQL included, gets the empty string. */
  function GenerateSampleModel(database: Option<string>): (r: string)
    ensures r != "" <==> database == Some("MongoDB") || database == Some("PostgreSQL")
  {
    if database == Some("MongoDB") then MongoModelText
    else if database == Some("PostgreSQL") then PgModelText
    else ""
  }

  /** `generateTestFile(testingFramework)`: Mocha or Jest, otherwise empty. */
  function GenerateTestFile(testingFramework: Option<string>): (r: string)
    ensures r != "" <==> testingFramework == Some("Mocha") || testingFramework == Some("Jest")
  {
    if testingFramework == Some("Mocha") then MochaTestText
    else if testingFramework == Some("Jest") then JestTestText
    else ""
  }

  /** A joined block of lines occupies one empty line when there are none. */
  function Block(lines: seq<string>): seq<string>
  {
    if |lines| == 0 then [""] else lines
  }

  /** Names that can be spliced into a line without breaking it. */
  predicate SingleLineNames(ms: seq<string>)
  {
    forall i :: 0 <= i < |ms| ==> '\n' !in ms[i]
  }

  /** Splitting a join of pieces that are non-empty lists of pieces. */
  lemma {:induction false} SplitJoinAppend(a: seq<string>, b: seq<string>, sep: char)
    requires |a| >= 1 && |b| >= 1
    ensures Join(a + b, sep) == Join(a, sep) + [sep] + Join(b, sep)
    decreases |a|
  {
    if |a| == 1 {
      assert (a + b)[1..] == b;
    } else {
      assert (a + b)[1..] == a[1..] + b;
      SplitJoinAppend(a[1..], b, sep);
    }
  }

  lemma SeparatorFreeNames(ms: seq<string>)
    requires SingleLineNames(ms)
    ensures SeparatorFree(ImportLines(ms), '\n')
    ensures SeparatorFree(UsageLines(ms), '\n')
  {
    forall i | 0 <= i < |ms|
      ensures '\n' !in ImportLine(ms[i]) && '\n' !in UsageLine(ms[i])
    {
      var m := ms[i];
      assert '\n' !in "const " && '\n' !in " = require('" && '\n' !in "');";
      assert '\n' !in "app.use(" && '\n' !in "());";
    }
  }

  /** The lines of a joined block. */
  lemma BlockLines(lines: seq<string>)
    requires SeparatorFree(lines, '\n')
    ensures Split(Join(lines, '\n'), '\n') == Block(lines)
  {
    if |lines| == 0 {
    } else {
      SplitJoin(lines, '\n');
    }
  }

  /** Splitting a join of several parts splits each part. */
  lemma SplitJoinParts(a: seq<string>, b: seq<string>)
    requires |a| >= 1 && |b| >= 1
    ensures Split(Join(a + b, '\n'), '\n') == Split(Join(a, '\n'), '\n') + Split(Join(b, '\n'), '\n')
  {
    SplitJoinAppend(a, b, '\n');
    SplitAround(Join(a, '\n'), Join(b, '\n'), '\n');
  }

  /** The fixed lines of the template are single lines. */
  lemma FixedIndexLines()
    ensures Split(Join(IndexHead, '\n'), '\n') == IndexHead
    ensures Split(Join(IndexMiddle, '\n'), '\n') == IndexMiddle
    ensures Split(Join(IndexTail, '\n'), '\n') == IndexTail
  {
    HeadIsSeparatorFree();
    TailIsSeparatorFree();
    assert SeparatorFree(IndexMiddle, '\n');
    SplitJoin(IndexHead, '\n');
    SplitJoin(IndexMiddle, '\n');
    SplitJoin(IndexTail, '\n');
  }

  lemma HeadIsSeparatorFree()
    ensures SeparatorFree(IndexHead, '\n')
  {
    assert '\n' !in IndexHead[1];
    assert '\n' !in IndexHead[2];
    assert '\n' !in IndexHead[3];
  }

  lemma TailIsSeparatorFree()
    ensures SeparatorFree(IndexTail, '\n')
  {
    assert '\n' !in IndexTail[0];
    assert '\n' !in IndexTail[2];
    assert '\n' !in IndexTail[3];
    assert '\n' !in IndexTail[4];
  }

  /** Splitting a join of the five parts of a template. */
  lemma {:induction false} SplitJoinFive(h: seq<string>, x: string, y: string, m: seq<string>, z: string, t: seq<string>)
    requires |h| >= 1 && |m| >= 1 && |t| >= 1
    ensures Split(Join(h + [x, y] + m + [z] + t, '\n'), '\n')
         == Split(Join(h, '\n'), '\n') + Split(x, '\n') + Split(y, '\n')
            + Split(Join(m, '\n'), '\n') + Split(z, '\n') + Split(Join(t, '\n'), '\n')
  {
    var p1 := h + [x];
    var p2 := p1 + [y];
    var p3 := p2 + m;
    var p4 := p3 + [z];
    assert h + [x, y] + m + [z] + t == p4 + t;
    SplitJoinParts(h, [x]);
    SplitJoinParts(p1, [y]);
    SplitJoinParts(p2, m);
    SplitJoinParts(p3, [z]);
    SplitJoinParts(p4, t);
  }

  /** The lines of `index.js`: the fixed head, one import line per middleware in
      input order (duplicates kept), the database snippet's lines, the fixed
      middle, one `app.use` line per middleware in the same order, the fixed
      tail. Nothing depends on the theme. */
  lemma IndexLines(theme: Option<string>, database: Option<string>, ms: seq<string>)
    requires SingleLineNames(ms)
    ensures GenerateIndexContent(theme, database, Some(ms)).Ok?
    ensures Split(GenerateIndexContent(theme, database, Some(ms)).value, '\n')
         == IndexHead + Block(ImportLines(ms)) + Split(DbConnection(database), '\n')
            + IndexMiddle + Block(UsageLines(ms)) + IndexTail
  {
    var imports := Join(ImportLines(ms), '\n');
    var usage := Join(UsageLines(ms), '\n');
    SeparatorFreeNames(ms);
    BlockLines(ImportLines(ms));
    BlockLines(UsageLines(ms));
    FixedIndexLines();
    SplitJoinFive(IndexHead, imports, DbConnection(database), IndexMiddle, usage, IndexTail);
  }

  // ----- Which snippet and which directives --------------------------------

  /** The database lines of `index.js`, between the import block and the
      fixed middle: the lines of the mongoose snippet for MongoDB, of the `pg`
      snippet for PostgreSQL, and one empty line for any other answer. */
  lemma IndexDatabaseLines(theme: Option<string>, database: Option<string>, ms: seq<string>)
    requires SingleLineNames(ms)
    ensures var lines := Split(GenerateIndexContent(theme, database, Some(ms)).value, '\n');
      var around := (dbLines: seq<string>) =>
        IndexHead + Block(ImportLines(ms)) + dbLines + IndexMiddle + Block(UsageLines(ms)) + IndexTail;
      && (database == Some("MongoDB") ==> lines == around(Split(MongoConnectionText, '\n')))
      && (database == Some("PostgreSQL") ==> lines == around(Split(PgConnectionText, '\n')))
      && (database != Some("MongoDB") && database != Some("PostgreSQL") ==> lines == around([""]))
  {
    IndexLines(theme, database, ms);
    if database != Some("MongoDB") && database != Some("PostgreSQL") {
      SplitWithoutSeparator("", '\n');
    }
  }

  /** The three `@tailwind` directives, one per line. */
  const TailwindDirectives: seq<string> := ["@tailwind base;", "@tailwind components;", "@tailwind utilities;"]

  /** The Tailwind stylesheet's lines are exactly the three directives. */
  lemma TailwindCssLines()
    ensures Split(TailwindCssText, '\n') == TailwindDirectives
  {
    var d := TailwindDirectives;
    TailwindCssJoin();
    assert SeparatorFree(d, '\n') by {
      assert '\n' !in d[0] && '\n' !in d[1] && '\n' !in d[2];
    }
    SplitJoin(d, '\n');
  }

  lemma TailwindCssJoin()
    ensures Join(TailwindDirectives, '\n') == TailwindCssText
  {
    var d := TailwindDirectives;
    assert "@tailwind base;\n" == d[0] + "\n";
    assert "@tailwind components;\n" == d[1] + "\n";
    assert Join(d[2..], '\n') == d[2];
    assert Join(d[1..], '\n') == d[1] + "\n" + d[2];
  }
}
