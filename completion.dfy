/**
 * Shell completion: which shell the user runs (from the environment), where
 * its completion file lives, and whether `install` writes it. The
 * environment, the home directory and the files that exist are parameters;
 * generating the script itself is not modelled.
 */
module Completion {
  import opened Types
  import opened Text
  import opened Paths

  datatype ShellType = Bash | Zsh | Fish | PowerShell | Elvish

  /** The variable tried first that is set: `SHELL`, then `COMSPEC`, then `PSModulePath`; else empty. */
  function ShellPath(env: map<string, string>): (path: string)
    ensures "SHELL" in env ==> path == env["SHELL"]
    ensures "SHELL" !in env && "COMSPEC" in env ==> path == env["COMSPEC"]
    ensures "SHELL" !in env && "COMSPEC" !in env && "PSModulePath" in env ==> path == env["PSModulePath"]
    ensures "SHELL" !in env && "COMSPEC" !in env && "PSModulePath" !in env ==> path == ""
  {
    if "SHELL" in env then env["SHELL"]
    else if "COMSPEC" in env then env["COMSPEC"]
    else if "PSModulePath" in env then env["PSModulePath"]
    else ""
  }

  /** The lower-cased last component of the shell path (empty when there is none). */
  function ShellName(path: string): string {
    Lower(FileName(path).GetOr(""))
  }

  /** The classification of `detect_shell`: the first of bash, zsh, fish, powershell/pwsh the name contains; bash otherwise. */
  function Classify(name: string): (k: ShellType)
    ensures k != Elvish
    ensures k == Zsh <==> !HasInfix(name, "bash") && HasInfix(name, "zsh")
    ensures k == Fish <==> !HasInfix(name, "bash") && !HasInfix(name, "zsh") && HasInfix(name, "fish")
    ensures k == PowerShell <==> (!HasInfix(name, "bash") && !HasInfix(name, "zsh") && !HasInfix(name, "fish")
      && (HasInfix(name, "powershell") || HasInfix(name, "pwsh")))
    ensures HasInfix(name, "bash") ==> k == Bash
  {
    if HasInfix(name, "bash") then Bash
    else if HasInfix(name, "zsh") then Zsh
    else if HasInfix(name, "fish") then Fish
    else if HasInfix(name, "powershell") || HasInfix(name, "pwsh") then PowerShell
    else Bash
  }

  /** `detect_shell`: never fails, never Elvish. */
  function DetectShell(env: map<string, string>): (k: ShellType)
    ensures k != Elvish
  {
    Classify(ShellName(ShellPath(env)))
  }

  lemma NoSubstringOfShorter(s: string, t: string)
    requires |s| < |t|
    ensures !HasInfix(s, t)
  {
  }

  /** With none of the variables set the shell path is empty, which classifies as bash. */
  lemma EmptyEnvironmentIsBash()
    ensures DetectShell(map[]) == Bash
  {
    assert Split("", '/') == [""];
    assert Components("") == [];
    NoSubstringOfShorter("", "bash");
  }

  /** Only the last component of the shell path counts: the directories leading to it never do. */
  lemma LastComponentDecides(dir: string, name: string)
    requires '/' !in name && name != "" && name != "." && name != ".."
    ensures FileName(dir + "/" + name) == Some(name)
    ensures DetectShell(map["SHELL" := dir + "/" + name]) == Classify(Lower(name))
  {
    ComponentsAppend(dir, name);
  }

  /** `SHELL` wins over `COMSPEC`. */
  lemma ShellVariableFirst(shell: string, comspec: string)
    ensures DetectShell(map["SHELL" := shell, "COMSPEC" := comspec]) == DetectShell(map["SHELL" := shell])
  {
  }

  /** `get_completion_filename`. */
  function CompletionFilename(shell: ShellType): string {
    match shell
    case Bash => "wallman"
    case Zsh => "_wallman"
    case Fish => "wallman.fish"
    case PowerShell => "wallman.ps1"
    case Elvish => "wallman.elv"
  }

  /** Different shells never share a completion file name. */
  lemma FilenameInjective(a: ShellType, b: ShellType)
    ensures CompletionFilename(a) == CompletionFilename(b) ==> a == b
  {
  }

  const BashUserDir := ".local/share/bash-completion/completions"
  const ZshUserDir := ".zsh/completions"

  /** `home.join(sub)`, or the empty path when there is no home directory. */
  function UnderHome(home: Option<string>, sub: string): string {
    if home.Some? then Join(home.value, sub) else ""
  }

  /**
   * `get_completion_dir`: a user directory under the home directory (the
   * empty path without one); bash and zsh prefer the user directory when it
   * exists and fall back to a system directory otherwise.
   */
  function CompletionDir(shell: ShellType, home: Option<string>, existing: set<string>): (dir: string)
    ensures shell.Bash? && home.Some? && Join(home.value, BashUserDir) in existing ==>
      dir == Join(home.value, BashUserDir)
    ensures shell.Bash? && !(home.Some? && Join(home.value, BashUserDir) in existing) ==>
      dir == "/etc/bash_completion.d"
    ensures shell.Zsh? && home.Some? && Join(home.value, ZshUserDir) in existing ==>
      dir == Join(home.value, ZshUserDir)
    ensures shell.Zsh? && !(home.Some? && Join(home.value, ZshUserDir) in existing) ==>
      dir == "/usr/local/share/zsh/site-functions"
    ensures shell.Fish? ==> dir == if home.Some? then Join(home.value, ".config/fish/completions") else ""
    ensures shell.PowerShell? ==> dir == if home.Some? then Join(home.value, "Documents/PowerShell/Completion") else ""
    ensures shell.Elvish? ==> dir == if home.Some? then Join(home.value, ".config/elvish/lib") else ""
  {
    match shell
    case Bash =>
      var user := UnderHome(home, BashUserDir);
      if user in existing && home.Some? then user else "/etc/bash_completion.d"
    case Zsh =>
      var user := UnderHome(home, ZshUserDir);
      if user in existing && home.Some? then user else "/usr/local/share/zsh/site-functions"
    case Fish => UnderHome(home, ".config/fish/completions")
    case PowerShell => UnderHome(home, "Documents/PowerShell/Completion")
    case Elvish => UnderHome(home, ".config/elvish/lib")
  }

  /** The completion file `install` and `uninstall` act on. */
  function CompletionFile(env: map<string, string>, home: Option<string>, existing: set<string>): string {
    var shell := DetectShell(env);
    Join(CompletionDir(shell, home, existing), CompletionFilename(shell))
  }

  datatype InstallOutcome = Kept(file: string) | Wrote(file: string) | CreateFailed

  /** `install_completion`: an existing file is kept unless forced; a written file is the shell's. */
  function InstallCompletion(env: map<string, string>, home: Option<string>, existing: set<string>,
                             force: bool, createOk: bool): (r: InstallOutcome)
    ensures r.CreateFailed? <==> !createOk
    ensures r.Kept? <==> createOk && CompletionFile(env, home, existing) in existing && !force
    ensures r.Kept? ==> r.file == CompletionFile(env, home, existing)
    ensures r.Wrote? ==> (r.file == CompletionFile(env, home, existing)
      && (force || CompletionFile(env, home, existing) !in existing))
  {
    var file := CompletionFile(env, home, existing);
    if !createOk then CreateFailed
    else if file in existing && !force then Kept(file)
    else Wrote(file)
  }

  /** The last character of `base.join(p)` is the last character of `p`. */
  lemma JoinLast(base: string, p: string)
    requires p != []
    ensures |Join(base, p)| > 0 && Join(base, p)[|Join(base, p)| - 1] == p[|p| - 1]
  {
    JoinEndsWith(base, p);
    var j := Join(base, p);
    assert j[|j| - |p|..][|p| - 1] == j[|j| - 1];
  }

  /** Adding a path that is not one of the user directories leaves the completion directory where it was. */
  lemma DirIgnoresOtherFiles(shell: ShellType, home: Option<string>, existing: set<string>, file: string)
    requires home.Some? ==> file != Join(home.value, BashUserDir) && file != Join(home.value, ZshUserDir)
    ensures CompletionDir(shell, home, existing + {file}) == CompletionDir(shell, home, existing)
  {
  }

  /** No completion file name ends in `s`. */
  lemma FilenameLast(shell: ShellType)
    ensures var name := CompletionFilename(shell); |name| > 0 && name[|name| - 1] != 's'
  {
    match shell
    case Bash =>
    case Zsh =>
    case Fish =>
    case PowerShell =>
    case Elvish =>
  }

  /** A path that does not end in `s` is neither user directory. */
  lemma NotUserDir(home: string, file: string)
    requires |file| > 0 && file[|file| - 1] != 's'
    ensures file != Join(home, BashUserDir) && file != Join(home, ZshUserDir)
  {
    JoinLast(home, BashUserDir);
    JoinLast(home, ZshUserDir);
  }

  /** Writing the completion file does not move the completion directory. */
  lemma FileKeepsDir(env: map<string, string>, home: Option<string>, existing: set<string>)
    ensures var file := CompletionFile(env, home, existing);
      CompletionFile(env, home, existing + {file}) == file
  {
    var shell := DetectShell(env);
    var name := CompletionFilename(shell);
    var file := Join(CompletionDir(shell, home, existing), name);
    FilenameLast(shell);
    JoinLast(CompletionDir(shell, home, existing), name);
    if home.Some? {
      NotUserDir(home.value, file);
    }
    DirIgnoresOtherFiles(shell, home, existing, file);
  }

  /** Installing twice without `--force` leaves the first installation in place. */
  lemma InstallTwiceKeeps(env: map<string, string>, home: Option<string>, existing: set<string>)
    requires InstallCompletion(env, home, existing, false, true).Wrote?
    ensures var file := InstallCompletion(env, home, existing, false, true).file;
      InstallCompletion(env, home, existing + {file}, false, true) == Kept(file)
  {
    FileKeepsDir(env, home, existing);
  }

  /** `uninstall_completion`: the file that is removed, if it exists. */
  function UninstallCompletion(env: map<string, string>, home: Option<string>, existing: set<string>): (removed: Option<string>)
    ensures removed.Some? <==> CompletionFile(env, home, existing) in existing
    ensures removed.Some? ==> removed.value == CompletionFile(env, home, existing)
  {
    var file := CompletionFile(env, home, existing);
    if file in existing then Some(file) else None
  }
}
