/** `installPackages(basePath, packages)`: the one shell command the builder
    runs after laying out the project, and how its promise settles. Running
    the command is outside the model; what is modelled is which command is
    issued, where, and what the caller learns from its outcome. */
module Installer {
  import opened JsValues
  import opened FileTree
  import opened Text

  /** A shell command line and the directory it runs in. */
  datatype Command = Command(cwd: Path, line: string)

  /** The fixed start of the command line. */
  const NpmInstall: string := "npm install "

  /** The command `installPackages` runs: `npm install` followed by the
      chosen packages separated by single spaces, in the project root. Nothing
      runs when the packages prompt was dismissed or nothing was picked. */
  function InstallCommand(basePath: Path, packages: Option<seq<string>>): (r: Option<Command>)
    ensures r.None? <==> packages.None? || |packages.value| == 0
    ensures r.Some? ==> r.value.cwd == basePath && NpmInstall <= r.value.line
  {
    if packages.Some? && |packages.value| > 0
    then Some(Command(basePath, NpmInstall + Join(packages.value, ' ')))
    else None
  }

  /** The words of the command line are `npm`, `install` and the packages in
      the order they were picked, provided no package name holds a space. */
  lemma CommandWords(basePath: Path, packages: seq<string>)
    requires |packages| >= 1 && SeparatorFree(packages, ' ')
    ensures Split(InstallCommand(basePath, Some(packages)).value.line, ' ') == ["npm", "install"] + packages
  {
    var joined := Join(packages, ' ');
    var rest := "install" + [' '] + joined;
    assert InstallCommand(basePath, Some(packages)).value.line == "npm" + [' '] + rest by {
      assert NpmInstall == "npm" + [' '] + "install" + [' '];
    }
    assert Split("npm" + [' '] + rest, ' ') == ["npm"] + Split(rest, ' ') by {
      SplitAround("npm", rest, ' ');
      FirstWords();
    }
    assert Split(rest, ' ') == ["install"] + packages by {
      SplitAround("install", joined, ' ');
      FirstWords();
      SplitJoin(packages, ' ');
    }
  }

  lemma FirstWords()
    ensures Split("npm", ' ') == ["npm"] && Split("install", ' ') == ["install"]
  {
    SplitWithoutSeparator("npm", ' ');
    SplitWithoutSeparator("install", ' ');
  }

  /** The prefix of the rejection message. */
  const InstallErrorPrefix: string := "Error installing packages: "

  /** How the promise settles once `npm` exits: rejected with a message that
      carries npm's standard error when it reported an error, resolved
      otherwise. */
  function Settle(failed: bool, stderr: string): (r: Result<(), string>)
    ensures r.Err? <==> failed
    ensures r.Err? ==> InstallErrorPrefix <= r.error && r.error[|InstallErrorPrefix|..] == stderr
  {
    if failed then Err(InstallErrorPrefix + stderr) else Ok(())
  }
}
