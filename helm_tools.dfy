/** The Helm tools' command lines: `["helm", command] + args`, with each tool
    growing its argument list by conditional appends. Running the command is not
    modelled; the values file's path is a parameter. */
module HelmTools {
  import opened Wrappers
  import opened Python
  import opened Objects

  /** The option words the tools emit. */
  const FlagWords: set<string> := {"--namespace", "-f", "--version", "--repo", "--create-namespace", "--wait",
                                   "--timeout", "--force", "--reset-values", "--username", "--password", "--force-update"}

  /** A value supplied by the caller that is not itself one of the option words. */
  predicate Plain(s: string) {
    s !in FlagWords
  }

  predicate PlainOpt(o: Option<string>) {
    o.None? || Plain(o.value)
  }

  /** The option words of an argument list, in order. */
  function Flags(args: seq<string>): (r: seq<string>)
    ensures |r| <= |args|
  {
    if |args| == 0 then [] else (if args[0] in FlagWords then [args[0]] else []) + Flags(args[1..])
  }

  lemma {:induction false} FlagsAppend(a: seq<string>, b: seq<string>)
    ensures Flags(a + b) == Flags(a) + Flags(b)
    decreases |a|
  {
    if |a| == 0 {
      assert a + b == b;
    } else {
      assert (a + b)[1..] == a[1..] + b;
      FlagsAppend(a[1..], b);
    }
  }

  /** An option followed by its value contributes just the option. */
  lemma FlagsOfPair(flag: string, value: string)
    requires flag in FlagWords && Plain(value)
    ensures Flags([flag, value]) == [flag]
  {
    assert [flag, value][1..] == [value];
    assert [value][1..] == [];
  }

  lemma FlagsOfWord(word: string)
    ensures Flags([word]) == (if word in FlagWords then [word] else [])
  {
    assert [word][1..] == [];
  }

  /** `[flag, value]` when the value is truthy. */
  function OptPair(flag: string, value: Option<string>): seq<string> {
    if Truthy(value) then [flag, value.value] else []
  }

  /** `[flag]` when the switch is set. */
  function OptWord(on: bool, flag: string): seq<string> {
    if on then [flag] else []
  }

  lemma FlagsOfOptPair(flag: string, value: Option<string>)
    requires flag in FlagWords && PlainOpt(value)
    ensures Flags(OptPair(flag, value)) == OptWord(Truthy(value), flag)
  {
    if Truthy(value) {
      FlagsOfPair(flag, value.value);
    }
  }

  lemma FlagsOfOptWord(on: bool, flag: string)
    requires flag in FlagWords
    ensures Flags(OptWord(on, flag)) == OptWord(on, flag)
  {
    if on {
      FlagsOfWord(flag);
    }
  }

  /** `run_helm_command(command, args)`'s `cmd` list. */
  method HelmCommand(command: string, args: Option<seq<string>>) returns (cmd: seq<string>)
    ensures cmd == ["helm", command] + args.GetOr([])
  {
    cmd := ["helm", command];
    if Truthy(args) {
      cmd := cmd + args.value;
    }
  }

  /* ---------- helm_repo_add ---------- */

  /** Caller-supplied words contribute no option words. */
  lemma {:induction false} FlagsOfPlainWords(words: seq<string>)
    requires forall i :: 0 <= i < |words| ==> Plain(words[i])
    ensures Flags(words) == []
    decreases |words|
  {
    if |words| > 0 {
      FlagsOfPlainWords(words[1..]);
    }
  }

  /** The credentials, sent only when both the username and the password are truthy. */
  function Credentials(username: Option<string>, password: Option<string>): seq<string> {
    if Truthy(username) && Truthy(password) then OptPair("--username", username) + OptPair("--password", password) else []
  }

  lemma FlagsOfCredentials(username: Option<string>, password: Option<string>)
    requires PlainOpt(username) && PlainOpt(password)
    ensures Flags(Credentials(username, password))
            == OptWord(Truthy(username) && Truthy(password), "--username")
               + OptWord(Truthy(username) && Truthy(password), "--password")
  {
    if Truthy(username) && Truthy(password) {
      FlagsAppend(OptPair("--username", username), OptPair("--password", password));
      FlagsOfOptPair("--username", username);
      FlagsOfOptPair("--password", password);
    }
  }

  function RepoAddArgs(name: string, url: string, username: Option<string>, password: Option<string>,
                       forceUpdate: bool): seq<string> {
    ["add", name, url] + Credentials(username, password) + OptWord(forceUpdate, "--force-update")
  }

  /** `repo add name url`; credentials only when both are truthy, then
      `--force-update` when asked. */
  lemma RepoAddShape(name: string, url: string, username: Option<string>, password: Option<string>, forceUpdate: bool)
    requires Plain(name) && Plain(url) && PlainOpt(username) && PlainOpt(password)
    ensures var args := RepoAddArgs(name, url, username, password, forceUpdate);
      && args[..3] == ["add", name, url]
      && Flags(args) == OptWord(Truthy(username) && Truthy(password), "--username")
                        + OptWord(Truthy(username) && Truthy(password), "--password")
                        + OptWord(forceUpdate, "--force-update")
  {
    var head := ["add", name, url];
    var creds := Credentials(username, password);
    FlagsAppend(head, creds);
    FlagsAppend(head + creds, OptWord(forceUpdate, "--force-update"));
    FlagsOfOptWord(forceUpdate, "--force-update");
    FlagsOfCredentials(username, password);
    assert Plain("add");
    FlagsOfPlainWords(head);
  }

  /** `helm_repo_add(...)`'s command line. */
  method HelmRepoAdd(name: string, url: string, username: Option<string>, password: Option<string>, forceUpdate: bool)
    returns (cmd: seq<string>)
    ensures cmd == ["helm", "repo"] + RepoAddArgs(name, url, username, password, forceUpdate)
  {
    var args := [name, url];
    if Truthy(username) && Truthy(password) {
      args := args + ["--username", username.value, "--password", password.value];
    }
    assert args == [name, url] + Credentials(username, password);
    args := AppendWord(args, forceUpdate, "--force-update");
    cmd := HelmCommand("repo", Some(["add"] + args));
  }

  /* ---------- helm_show_values ---------- */

  function ShowValuesArgs(chart: string, version: Option<string>, repo: Option<string>): seq<string> {
    ["values"] + OptPair("--version", version) + OptPair("--repo", repo) + [chart]
  }

  /** `show values`, the optional version and repository, and the chart last. */
  lemma ShowValuesShape(chart: string, version: Option<string>, repo: Option<string>)
    requires Plain(chart) && PlainOpt(version) && PlainOpt(repo)
    ensures var args := ShowValuesArgs(chart, version, repo);
      && args[0] == "values" && args[|args| - 1] == chart
      && Flags(args) == OptWord(Truthy(version), "--version") + OptWord(Truthy(repo), "--repo")
  {
    var a := ["values"];
    var b := OptPair("--version", version);
    var c := OptPair("--repo", repo);
    FlagsAppend(a, b);
    FlagsAppend(a + b, c);
    FlagsAppend(a + b + c, [chart]);
    FlagsOfWord("values");
    FlagsOfWord(chart);
    FlagsOfOptPair("--version", version);
    FlagsOfOptPair("--repo", repo);
  }

  /** `helm_show_values(...)`'s command line. */
  method HelmShowValues(chart: string, version: Option<string>, repo: Option<string>) returns (cmd: seq<string>)
    ensures cmd == ["helm", "show"] + ShowValuesArgs(chart, version, repo)
  {
    var args: seq<string> := [];
    if Truthy(version) {
      args := args + ["--version", version.value];
    }
    if Truthy(repo) {
      args := args + ["--repo", repo.value];
    }
    args := args + [chart];
    cmd := HelmCommand("show", Some(["values"] + args));
  }

  /* ---------- helm_install and helm_upgrade ---------- */

  /** The start shared by install and upgrade. */
  function ReleaseArgs(release: string, chart: string, namespace: string): seq<string> {
    [release, chart, "--namespace", namespace]
  }

  /** The values file, passed with `-f` when the values are truthy. */
  function ValuesArgs(values: Option<map<string, Json>>, valuesFile: string): seq<string> {
    if TruthyMap(values) then ["-f", valuesFile] else []
  }

  /** The arguments install and upgrade share: release, chart, namespace, values
      file, version and repository. */
  function SourceArgs(release: string, chart: string, namespace: string, values: Option<map<string, Json>>,
                      valuesFile: string, version: Option<string>, repo: Option<string>): seq<string> {
    ReleaseArgs(release, chart, namespace) + ValuesArgs(values, valuesFile)
      + OptPair("--version", version) + OptPair("--repo", repo)
  }

  function InstallTail(createNamespace: bool, wait: bool, timeout: Option<string>): seq<string> {
    OptWord(createNamespace, "--create-namespace") + OptWord(wait, "--wait") + OptPair("--timeout", timeout)
  }

  function UpgradeTail(wait: bool, timeout: Option<string>, force: bool, resetValues: bool): seq<string> {
    OptWord(wait, "--wait") + OptPair("--timeout", timeout) + OptWord(force, "--force") + OptWord(resetValues, "--reset-values")
  }

  function InstallArgs(release: string, chart: string, namespace: string, values: Option<map<string, Json>>,
                       valuesFile: string, version: Option<string>, repo: Option<string>,
                       createNamespace: bool, wait: bool, timeout: Option<string>): seq<string> {
    SourceArgs(release, chart, namespace, values, valuesFile, version, repo) + InstallTail(createNamespace, wait, timeout)
  }

  function UpgradeArgs(release: string, chart: string, namespace: string, values: Option<map<string, Json>>,
                       valuesFile: string, version: Option<string>, repo: Option<string>,
                       wait: bool, timeout: Option<string>, force: bool, resetValues: bool): seq<string> {
    SourceArgs(release, chart, namespace, values, valuesFile, version, repo) + UpgradeTail(wait, timeout, force, resetValues)
  }

  lemma FlagsOfReleaseArgs(release: string, chart: string, namespace: string)
    requires Plain(release) && Plain(chart)
    requires Plain(namespace)
    ensures Flags(ReleaseArgs(release, chart, namespace)) == ["--namespace"]
  {
    FlagsAppend([release, chart], ["--namespace", namespace]);
    assert [release, chart] + ["--namespace", namespace] == ReleaseArgs(release, chart, namespace);
    FlagsAppend([release], [chart]);
    assert [release] + [chart] == [release, chart];
    FlagsOfWord(release);
    FlagsOfWord(chart);
    FlagsOfPair("--namespace", namespace);
  }

  lemma FlagsOfValuesArgs(values: Option<map<string, Json>>, valuesFile: string)
    requires Plain(valuesFile)
    ensures Flags(ValuesArgs(values, valuesFile)) == OptWord(TruthyMap(values), "-f")
  {
    if TruthyMap(values) {
      FlagsOfPair("-f", valuesFile);
    }
  }

  /** Every option word of an argument list is kept by `Flags`. */
  lemma {:induction false} FlagsKeepsOptionWords(args: seq<string>, word: string)
    requires word in FlagWords && word in args
    ensures word in Flags(args)
    decreases |args|
  {
    if args[0] != word {
      assert word in args[1..];
      FlagsKeepsOptionWords(args[1..], word);
    }
  }

  lemma SourceShape(release: string, chart: string, namespace: string, values: Option<map<string, Json>>,
                    valuesFile: string, version: Option<string>, repo: Option<string>)
    requires Plain(release) && Plain(chart) && Plain(namespace) && Plain(valuesFile)
    requires PlainOpt(version) && PlainOpt(repo)
    ensures var args := SourceArgs(release, chart, namespace, values, valuesFile, version, repo);
      && |args| >= 4 && args[..4] == [release, chart, "--namespace", namespace]
      && Flags(args) == ["--namespace"] + OptWord(TruthyMap(values), "-f")
           + OptWord(Truthy(version), "--version") + OptWord(Truthy(repo), "--repo")
  {
    var a := ReleaseArgs(release, chart, namespace);
    var b := ValuesArgs(values, valuesFile);
    var c := OptPair("--version", version);
    var d := OptPair("--repo", repo);
    FlagsAppend(a, b);
    FlagsAppend(a + b, c);
    FlagsAppend(a + b + c, d);
    FlagsOfReleaseArgs(release, chart, namespace);
    FlagsOfValuesArgs(values, valuesFile);
    FlagsOfOptPair("--version", version);
    FlagsOfOptPair("--repo", repo);
    assert (a + b + c + d)[..4] == a;
  }

  lemma FlagsOfInstallTail(createNamespace: bool, wait: bool, timeout: Option<string>)
    requires PlainOpt(timeout)
    ensures Flags(InstallTail(createNamespace, wait, timeout))
         == OptWord(createNamespace, "--create-namespace") + OptWord(wait, "--wait") + OptWord(Truthy(timeout), "--timeout")
  {
    var e := OptWord(createNamespace, "--create-namespace");
    var f := OptWord(wait, "--wait");
    var g := OptPair("--timeout", timeout);
    FlagsAppend(e, f);
    FlagsAppend(e + f, g);
    FlagsOfOptWord(createNamespace, "--create-namespace");
    FlagsOfOptWord(wait, "--wait");
    FlagsOfOptPair("--timeout", timeout);
  }

  lemma FlagsOfUpgradeTail(wait: bool, timeout: Option<string>, force: bool, resetValues: bool)
    requires PlainOpt(timeout)
    ensures Flags(UpgradeTail(wait, timeout, force, resetValues))
         == OptWord(wait, "--wait") + OptWord(Truthy(timeout), "--timeout")
            + OptWord(force, "--force") + OptWord(resetValues, "--reset-values")
  {
    var e := OptWord(wait, "--wait");
    var f := OptPair("--timeout", timeout);
    var g := OptWord(force, "--force");
    var h := OptWord(resetValues, "--reset-values");
    FlagsAppend(e, f);
    FlagsAppend(e + f, g);
    FlagsAppend(e + f + g, h);
    FlagsOfOptWord(wait, "--wait");
    FlagsOfOptPair("--timeout", timeout);
    FlagsOfOptWord(force, "--force");
    FlagsOfOptWord(resetValues, "--reset-values");
  }

  /** Install starts with the release, chart and namespace; each option appears
      once and only when set, in the order values file, version, repository,
      create-namespace, wait, timeout. */
  lemma InstallShape(release: string, chart: string, namespace: string, values: Option<map<string, Json>>,
                     valuesFile: string, version: Option<string>, repo: Option<string>,
                     createNamespace: bool, wait: bool, timeout: Option<string>)
    requires Plain(release) && Plain(chart) && Plain(namespace) && Plain(valuesFile)
    requires PlainOpt(version) && PlainOpt(repo) && PlainOpt(timeout)
    ensures var args := InstallArgs(release, chart, namespace, values, valuesFile, version, repo, createNamespace, wait, timeout);
      && args[..4] == [release, chart, "--namespace", namespace]
      && Flags(args) == ["--namespace"] + OptWord(TruthyMap(values), "-f")
           + OptWord(Truthy(version), "--version") + OptWord(Truthy(repo), "--repo")
           + OptWord(createNamespace, "--create-namespace") + OptWord(wait, "--wait")
           + OptWord(Truthy(timeout), "--timeout")
  {
    var source := SourceArgs(release, chart, namespace, values, valuesFile, version, repo);
    var tail := InstallTail(createNamespace, wait, timeout);
    SourceShape(release, chart, namespace, values, valuesFile, version, repo);
    FlagsOfInstallTail(createNamespace, wait, timeout);
    FlagsAppend(source, tail);
    assert (source + tail)[..4] == source[..4];
    AppendThree(Flags(source), OptWord(createNamespace, "--create-namespace"), OptWord(wait, "--wait"),
                OptWord(Truthy(timeout), "--timeout"));
  }

  /** Regrouping of concatenation, named for the call sites above and below. */
  lemma AppendThree(x: seq<string>, e: seq<string>, f: seq<string>, g: seq<string>)
    ensures x + (e + f + g) == x + e + f + g
  {
  }

  lemma AppendFour(x: seq<string>, e: seq<string>, f: seq<string>, g: seq<string>, h: seq<string>)
    ensures x + (e + f + g + h) == x + e + f + g + h
  {
  }

  /** Upgrade shares install's start and option order, never asks to create the
      namespace, and ends with `--force` and then `--reset-values` when set. */
  lemma UpgradeShape(release: string, chart: string, namespace: string, values: Option<map<string, Json>>,
                     valuesFile: string, version: Option<string>, repo: Option<string>,
                     wait: bool, timeout: Option<string>, force: bool, resetValues: bool)
    requires Plain(release) && Plain(chart) && Plain(namespace) && Plain(valuesFile)
    requires PlainOpt(version) && PlainOpt(repo) && PlainOpt(timeout)
    ensures var args := UpgradeArgs(release, chart, namespace, values, valuesFile, version, repo, wait, timeout, force, resetValues);
      && args[..4] == [release, chart, "--namespace", namespace]
      && Flags(args) == ["--namespace"] + OptWord(TruthyMap(values), "-f")
           + OptWord(Truthy(version), "--version") + OptWord(Truthy(repo), "--repo")
           + OptWord(wait, "--wait") + OptWord(Truthy(timeout), "--timeout")
           + OptWord(force, "--force") + OptWord(resetValues, "--reset-values")
  {
    var source := SourceArgs(release, chart, namespace, values, valuesFile, version, repo);
    var tail := UpgradeTail(wait, timeout, force, resetValues);
    SourceShape(release, chart, namespace, values, valuesFile, version, repo);
    FlagsOfUpgradeTail(wait, timeout, force, resetValues);
    FlagsAppend(source, tail);
    assert (source + tail)[..4] == source[..4];
    AppendFour(Flags(source), OptWord(wait, "--wait"), OptWord(Truthy(timeout), "--timeout"),
               OptWord(force, "--force"), OptWord(resetValues, "--reset-values"));
  }

  /** Upgrade never asks to create the namespace. */
  lemma UpgradeNeverCreatesNamespace(release: string, chart: string, namespace: string, values: Option<map<string, Json>>,
                                     valuesFile: string, version: Option<string>, repo: Option<string>,
                                     wait: bool, timeout: Option<string>, force: bool, resetValues: bool)
    requires Plain(release) && Plain(chart) && Plain(namespace) && Plain(valuesFile)
    requires PlainOpt(version) && PlainOpt(repo) && PlainOpt(timeout)
    ensures "--create-namespace" !in UpgradeArgs(release, chart, namespace, values, valuesFile, version, repo,
                                                 wait, timeout, force, resetValues)
  {
    var source := SourceArgs(release, chart, namespace, values, valuesFile, version, repo);
    var tail := UpgradeTail(wait, timeout, force, resetValues);
    var w := "--create-namespace";
    if w in source {
      SourceShape(release, chart, namespace, values, valuesFile, version, repo);
      FlagsKeepsOptionWords(source, w);
      assert false;
    }
    if w in tail {
      FlagsOfUpgradeTail(wait, timeout, force, resetValues);
      FlagsKeepsOptionWords(tail, w);
      assert false;
    }
  }

  /** `args.extend([flag, value])` when the value is truthy. */
  method AppendPair(args: seq<string>, flag: string, value: Option<string>) returns (r: seq<string>)
    ensures r == args + OptPair(flag, value)
  {
    r := args;
    if Truthy(value) {
      r := r + [flag, value.value];
    }
  }

  /** `args.append(flag)` when the switch is set. */
  method AppendWord(args: seq<string>, on: bool, flag: string) returns (r: seq<string>)
    ensures r == args + OptWord(on, flag)
  {
    r := args;
    if on {
      r := r + [flag];
    }
  }

  /** The arguments shared by install and upgrade, up to the repository. */
  method ReleaseAndSource(release: string, chart: string, namespace: string, values: Option<map<string, Json>>,
                          valuesFile: string, version: Option<string>, repo: Option<string>)
    returns (args: seq<string>)
    ensures args == SourceArgs(release, chart, namespace, values, valuesFile, version, repo)
  {
    args := [release, chart, "--namespace", namespace];
    if TruthyMap(values) {
      args := args + ["-f", valuesFile];
    }
    args := AppendPair(args, "--version", version);
    args := AppendPair(args, "--repo", repo);
  }

  /** `helm_install(...)`'s command line; `create_namespace` and `wait` default to
      true. */
  method HelmInstall(release: string, chart: string, namespace: string, values: Option<map<string, Json>>,
                     valuesFile: string, version: Option<string>, repo: Option<string>,
                     createNamespace: bool := true, wait: bool := true, timeout: Option<string> := None)
    returns (cmd: seq<string>)
    ensures cmd == ["helm", "install"] + InstallArgs(release, chart, namespace, values, valuesFile, version, repo,
                                                     createNamespace, wait, timeout)
  {
    var args := ReleaseAndSource(release, chart, namespace, values, valuesFile, version, repo);
    var tail := AppendWord([], createNamespace, "--create-namespace");
    tail := AppendWord(tail, wait, "--wait");
    tail := AppendPair(tail, "--timeout", timeout);
    cmd := HelmCommand("install", Some(args + tail));
  }

  /** `helm_upgrade(...)`'s command line; `wait` defaults to true, `force` and
      `reset_values` to false. */
  method HelmUpgrade(release: string, chart: string, namespace: string, values: Option<map<string, Json>>,
                     valuesFile: string, version: Option<string>, repo: Option<string>,
                     wait: bool := true, timeout: Option<string> := None, force: bool := false, resetValues: bool := false)
    returns (cmd: seq<string>)
    ensures cmd == ["helm", "upgrade"] + UpgradeArgs(release, chart, namespace, values, valuesFile, version, repo,
                                                     wait, timeout, force, resetValues)
  {
    var args := ReleaseAndSource(release, chart, namespace, values, valuesFile, version, repo);
    var tail := AppendWord([], wait, "--wait");
    tail := AppendPair(tail, "--timeout", timeout);
    tail := AppendWord(tail, force, "--force");
    tail := AppendWord(tail, resetValues, "--reset-values");
    cmd := HelmCommand("upgrade", Some(args + tail));
  }
}
