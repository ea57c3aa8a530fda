/**
 * The start-up logic of `Main` (src/emptty.go): build the default configuration, load the main
 * file and the drop-in directory, then scan the command line for `-t/--tty` and `-d/--daemon`;
 * and `getVersion`, which renders the version string with the build tags.
 *
 * The `-h` and `-v` exits, logging, the message of the day and the hand-over to `login` are not
 * part of this model.
 */
module Emptty {
  import opened Wrappers
  import opened Text
  import opened Config

  const Version := "0.5.0"

  /** `tagPam` of the PAM build; `tagUtmp` and `tagXlib` come from files outside this model. */
  const TagPam := ""

  predicate IsTtyFlag(arg: string) {
    arg == "-t" || arg == "--tty"
  }

  predicate IsDaemonFlag(arg: string) {
    arg == "-d" || arg == "--daemon"
  }

  /**
   * What the argument at index `i` does to `minTty`: a `-t`/`--tty` followed by a value whose
   * `parseTTY(value, "0")` is positive sets it; anything else leaves it alone.
   */
  function TtyOverride(args: seq<string>, i: nat, sanitize: Sanitizer): (o: Option<int>)
    requires i < |args|
    ensures o.Some? ==> 0 < o.value <= MaxInt32
    ensures o.Some? <==> IsTtyFlag(args[i]) && i + 1 < |args| && ParseTTY(args[i + 1], "0", sanitize) > 0
    ensures o.Some? ==> o.value == ParseTTY(args[i + 1], "0", sanitize)
  {
    if IsTtyFlag(args[i]) && i + 1 < |args| && ParseTTY(args[i + 1], "0", sanitize) > 0
    then Some(ParseTTY(args[i + 1], "0", sanitize))
    else None
  }

  /** `minTty` after the loop has seen `args[..n]`. */
  function TtyAfter(prior: int, args: seq<string>, n: nat, sanitize: Sanitizer): int
    requires n <= |args|
  {
    if n == 0 then prior else TtyOverride(args, n - 1, sanitize).GetOr(TtyAfter(prior, args, n - 1, sanitize))
  }

  predicate HasDaemonFlag(args: seq<string>, n: nat)
    requires n <= |args|
  {
    exists i :: 0 <= i < n && IsDaemonFlag(args[i])
  }

  /** The configuration after the command-line scan. */
  function ArgsApplied(v: ConfigValues, args: seq<string>, sanitize: Sanitizer): ConfigValues {
    v.(minTty := TtyAfter(v.minTty, args, |args|, sanitize),
       daemonMode := v.daemonMode || HasDaemonFlag(args, |args|))
  }

  /** The scan of `os.Args` (lines 37-49): nothing but `minTty` and `daemonMode` changes. */
  method ParseArgs(conf: Config, args: seq<string>, sanitize: Sanitizer)
    modifies conf
    ensures conf.Values() == ArgsApplied(old(conf.Values()), args, sanitize)
  {
    var minTty, daemonMode := ScanArgs(conf.minTty, conf.daemonMode, args, sanitize);
    conf.minTty, conf.daemonMode := minTty, daemonMode;
  }

  /**
   * The loop itself, on the two fields' values: nothing reads the configuration during the scan,
   * so updating copies and writing them back once is the loop's effect.
   */
  method ScanArgs(tty0: int, daemon0: bool, args: seq<string>, sanitize: Sanitizer) returns (minTty: int, daemonMode: bool)
    ensures minTty == TtyAfter(tty0, args, |args|, sanitize)
    ensures daemonMode == (daemon0 || HasDaemonFlag(args, |args|))
  {
    minTty, daemonMode := tty0, daemon0;
    for i := 0 to |args|
      invariant minTty == TtyAfter(tty0, args, i, sanitize)
      invariant daemonMode == (daemon0 || HasDaemonFlag(args, i))
    {
      var arg := args[i];
      if IsTtyFlag(arg) {
        if |args| > i + 1 {
          var tty := ParseTTY(args[i + 1], "0", sanitize);
          if tty > 0 {
            minTty := tty;
          }
        }
      } else if IsDaemonFlag(arg) {
        daemonMode := true;
      }
      assert HasDaemonFlag(args, i + 1) <==> HasDaemonFlag(args, i) || IsDaemonFlag(args[i]);
    }
  }

  /**
   * Lines 26-35 of `Main`: the defaults, then `/etc/emptty.conf`, then `/etc/emptty.d`. A main file
   * that fails to load exits the program (`null` here); the directory load never fails.
   */
  method LoadAllConfig(hostEnv: map<string, string>, files: map<string, IniFile>, entries: seq<DirEntry>,
                       ini: IniParsers) returns (conf: Config?)
    ensures conf == null <==> SectionOf(PathConfigFile, files) == []
    ensures conf != null ==> fresh(conf) && conf.Values() == FileValues(hostEnv, files, entries, ini)
  {
    conf := new Config.NewDefault(hostEnv);
    var err := LoadConfig(conf, PathConfigFile, files, ini);
    if err.Some? {
      return null;
    }
    err := LoadConfigDir(conf, PathConfigDir, entries, files, ini);
    if err.Some? {
      return null;
    }
  }

  /** Lines 26-49 of `Main`: the configuration loads, then the command-line scan. */
  method Startup(hostEnv: map<string, string>, files: map<string, IniFile>, entries: seq<DirEntry>,
                 args: seq<string>, ini: IniParsers, sanitize: Sanitizer) returns (conf: Config?)
    ensures conf == null <==> SectionOf(PathConfigFile, files) == []
    ensures conf != null ==> fresh(conf) && conf.Values() == StartupValues(hostEnv, files, entries, args, ini, sanitize)
  {
    conf := LoadAllConfig(hostEnv, files, entries, ini);
    if conf != null {
      ParseArgs(conf, args, sanitize);
    }
  }

  /** The configuration both files give. */
  function FileValues(hostEnv: map<string, string>, files: map<string, IniFile>, entries: seq<DirEntry>,
                      ini: IniParsers): ConfigValues
    requires SectionOf(PathConfigFile, files) != []
  {
    var main := Loaded(DefaultValues(hostEnv), files[PathConfigFile].sections[SectionName], ini);
    LoadedAll(main, DirSections(entries, files), ini)
  }

  /** The configuration `Startup` ends with when the main file loads. */
  function StartupValues(hostEnv: map<string, string>, files: map<string, IniFile>, entries: seq<DirEntry>,
                         args: seq<string>, ini: IniParsers, sanitize: Sanitizer): ConfigValues
    requires SectionOf(PathConfigFile, files) != []
  {
    ArgsApplied(FileValues(hostEnv, files, entries, ini), args, sanitize)
  }

  /** Without a positive `-t` override, `minTty` keeps what the files gave it. */
  lemma {:induction false} NoOverrideKeepsTty(prior: int, args: seq<string>, n: nat, sanitize: Sanitizer)
    requires n <= |args|
    requires forall i :: 0 <= i < n ==> TtyOverride(args, i, sanitize).None?
    ensures TtyAfter(prior, args, n, sanitize) == prior
  {
    if n > 0 {
      NoOverrideKeepsTty(prior, args, n - 1, sanitize);
    }
  }

  /** Over several `-t` flags the last one with a positive value wins. */
  lemma {:induction false} LastPositiveTtyWins(prior: int, args: seq<string>, n: nat, i: nat, sanitize: Sanitizer)
    requires i < n <= |args|
    requires TtyOverride(args, i, sanitize).Some?
    requires forall j :: i < j < n ==> TtyOverride(args, j, sanitize).None?
    ensures TtyAfter(prior, args, n, sanitize) == ParseTTY(args[i + 1], "0", sanitize)
  {
    if n - 1 > i {
      LastPositiveTtyWins(prior, args, n - 1, i, sanitize);
    }
  }

  /** `minTty` after the scan is the prior value or a positive 32-bit number. */
  lemma {:induction false} TtyAfterRange(prior: int, args: seq<string>, n: nat, sanitize: Sanitizer)
    requires n <= |args|
    ensures var t := TtyAfter(prior, args, n, sanitize); t == prior || 0 < t <= MaxInt32
  {
    if n > 0 {
      TtyAfterRange(prior, args, n - 1, sanitize);
    }
  }

  /** A trailing `-t` with no value, or a value that is not positive, does nothing. */
  lemma TtyFlagIgnored(args: seq<string>, i: nat, sanitize: Sanitizer)
    requires i < |args| && IsTtyFlag(args[i])
    requires i + 1 == |args| || ParseTTY(args[i + 1], "0", sanitize) <= 0
    ensures TtyOverride(args, i, sanitize).None?
  {
  }

  /**
   * The command line is applied after both configuration loads: a positive `-t` override decides
   * `minTty` whatever the files say, and `-d` turns daemon mode on.
   */
  lemma CommandLineOverridesFiles(hostEnv: map<string, string>, files: map<string, IniFile>, entries: seq<DirEntry>,
                                  args: seq<string>, ini: IniParsers, sanitize: Sanitizer, i: nat)
    requires SectionOf(PathConfigFile, files) != []
    requires i < |args| && TtyOverride(args, i, sanitize).Some?
    requires forall j :: i < j < |args| ==> TtyOverride(args, j, sanitize).None?
    ensures StartupValues(hostEnv, files, entries, args, ini, sanitize).minTty == ParseTTY(args[i + 1], "0", sanitize)
    ensures HasDaemonFlag(args, |args|) ==> StartupValues(hostEnv, files, entries, args, ini, sanitize).daemonMode
  {
    LastPositiveTtyWins(FileValues(hostEnv, files, entries, ini).minTty, args, |args|, i, sanitize);
  }

  /** Daemon mode comes only from the command line: no file sets it. */
  lemma DaemonModeOnlyFromArgs(hostEnv: map<string, string>, files: map<string, IniFile>, entries: seq<DirEntry>,
                               args: seq<string>, ini: IniParsers, sanitize: Sanitizer)
    requires SectionOf(PathConfigFile, files) != []
    ensures StartupValues(hostEnv, files, entries, args, ini, sanitize).daemonMode == HasDaemonFlag(args, |args|)
  {
    var main := Loaded(DefaultValues(hostEnv), files[PathConfigFile].sections[SectionName], ini);
    LoadedAllKeepsDaemonMode(main, DirSections(entries, files), ini);
  }

  /**
   * The `strings.Builder` loop of `getVersion`: ", " goes before a tag only once the builder is
   * non-empty.
   */
  function JoinTags(tags: seq<string>): string {
    if tags == [] then ""
    else
      var acc := JoinTags(tags[..|tags| - 1]);
      (if |acc| > 0 then acc + ", " else acc) + tags[|tags| - 1]
  }

  /** `getVersion`, given the link-time `buildVersion` and the tags of the other build files. */
  method GetVersion(buildVersion: string, tagUtmp: string, tagXlib: string) returns (v: string)
    ensures buildVersion == "" ==> v == Version
    ensures buildVersion != "" && JoinTags([TagPam, tagUtmp, tagXlib]) == "" ==> v == buildVersion[1..]
    ensures buildVersion != "" && JoinTags([TagPam, tagUtmp, tagXlib]) != "" ==>
      v == buildVersion[1..] + " (" + JoinTags([TagPam, tagUtmp, tagXlib]) + ")"
  {
    var all := [TagPam, tagUtmp, tagXlib];
    var tags := "";
    for i := 0 to |all|
      invariant tags == JoinTags(all[..i])
    {
      assert all[..i + 1][..i] == all[..i];
      if |tags| > 0 {
        tags := tags + ", ";
      }
      tags := tags + all[i];
    }
    assert all[..|all|] == all;
    if buildVersion != "" {
      if |tags| == 0 {
        return buildVersion[1..];
      }
      return buildVersion[1..] + " (" + tags + ")";
    }
    return Version;
  }

  /** The tags drop their leading empty entries; from the first non-empty one on, each tag counts. */
  function DropLeadingEmpty(tags: seq<string>): (r: seq<string>)
    ensures |r| <= |tags|
    ensures r == tags[|tags| - |r|..]
    ensures r != [] ==> r[0] != ""
    ensures forall i :: 0 <= i < |tags| - |r| ==> tags[i] == ""
  {
    if tags == [] then []
    else if tags[0] == "" then DropLeadingEmpty(tags[1..])
    else tags
  }

  /** `strings.Join(parts, ", ")`. */
  function JoinComma(parts: seq<string>): string {
    if parts == [] then ""
    else if |parts| == 1 then parts[0]
    else JoinComma(parts[..|parts| - 1]) + ", " + parts[|parts| - 1]
  }

  /** The builder loop is `strings.Join` with ", " over the tags after their leading empty ones. */
  lemma {:induction false} JoinTagsIsJoin(tags: seq<string>)
    ensures JoinTags(tags) == JoinComma(DropLeadingEmpty(tags))
  {
    if tags != [] {
      var init := tags[..|tags| - 1];
      assert tags == init + [tags[|tags| - 1]];
      JoinTagsIsJoin(init);
      JoinTagsStep(init, tags[|tags| - 1]);
    }
  }

  /** One more tag keeps `JoinTags` and the `strings.Join` reading in step. */
  lemma JoinTagsStep(init: seq<string>, last: string)
    requires JoinTags(init) == JoinComma(DropLeadingEmpty(init))
    ensures JoinTags(init + [last]) == JoinComma(DropLeadingEmpty(init + [last]))
  {
    var tags := init + [last];
    assert tags[..|tags| - 1] == init;
    var d := DropLeadingEmpty(init);
    DropAppend(init, last);
    JoinTagsNonEmpty(init);
    if d != [] {
      assert (d + [last])[..|d|] == d;
    }
  }

  /** Appending a tag after the leading empty run: it is dropped only if it is empty itself. */
  lemma {:induction false} DropAppend(tags: seq<string>, t: string)
    ensures DropLeadingEmpty(tags) == [] ==> DropLeadingEmpty(tags + [t]) == (if t == "" then [] else [t])
    ensures DropLeadingEmpty(tags) != [] ==> DropLeadingEmpty(tags + [t]) == DropLeadingEmpty(tags) + [t]
  {
    if tags != [] {
      assert (tags + [t])[1..] == tags[1..] + [t];
      DropAppend(tags[1..], t);
    }
  }

  /** The joined tags are empty exactly when every tag is empty. */
  lemma {:induction false} JoinTagsAllEmpty(tags: seq<string>)
    ensures JoinTags(tags) == "" <==> forall i :: 0 <= i < |tags| ==> tags[i] == ""
  {
    if tags != [] {
      var init := tags[..|tags| - 1];
      JoinTagsAllEmpty(init);
      assert forall i :: 0 <= i < |init| ==> init[i] == tags[i];
    }
  }

  /** Once a non-empty tag has been seen, so the joined text is non-empty, it stays so. */
  lemma JoinTagsNonEmpty(tags: seq<string>)
    ensures DropLeadingEmpty(tags) != [] <==> JoinTags(tags) != ""
  {
    JoinTagsAllEmpty(tags);
    var d := DropLeadingEmpty(tags);
    if d != [] {
      assert tags[|tags| - |d|] == d[0];
    }
  }

  /** One more tag: a separator only when the text so far is non-empty, then the tag. */
  lemma JoinTagsSnoc(init: seq<string>, last: string)
    ensures JoinTags(init + [last]) == (if JoinTags(init) != "" then JoinTags(init) + ", " else "") + last
  {
    assert (init + [last])[..|init|] == init;
  }

  /** Empty tags before the first non-empty one add nothing. */
  lemma LeadingEmptyTags(b: string)
    ensures JoinTags(["", "", b]) == b
  {
    JoinTagsSnoc([], "");
    assert [] + [""] == [""];
    JoinTagsSnoc([""], "");
    assert [""] + [""] == ["", ""];
    JoinTagsSnoc(["", ""], b);
    assert ["", ""] + [b] == ["", "", b];
  }

  /** After a non-empty tag, the next tag is preceded by ", ", even when it is empty. */
  lemma TagAfterTag(a: string, b: string)
    requires a != ""
    ensures JoinTags(["", a, b]) == a + ", " + b
  {
    var one, two := [""], ["", a];
    JoinTagsSnoc([], "");
    assert [] + [""] == one;
    assert JoinTags(one) == "";
    JoinTagsSnoc(one, a);
    assert one + [a] == two;
    assert "" + a == a;
    assert JoinTags(two) == a;
    JoinTagsSnoc(two, b);
    assert two + [b] == ["", a, b];
  }

  /** Leading empty tags add nothing, while an empty tag after a non-empty one still adds ", ". */
  lemma EmptyTagSeparators(a: string, b: string)
    requires a != "" && b != ""
    ensures JoinTags(["", "", b]) == b
    ensures JoinTags(["", a, ""]) == a + ", "
    ensures JoinTags(["", a, b]) == a + ", " + b
  {
    LeadingEmptyTags(b);
    TagAfterTag(a, "");
    assert a + ", " + "" == a + ", ";
    TagAfterTag(a, b);
  }
}
