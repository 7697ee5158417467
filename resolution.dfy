/** Resolution of the two ziti options, the overlay identity file and the
    service name, from the command-line flags and the kubeconfig files
    (main.go:74-83, 140-247).

    The pure functions below say what the resolution computes; the class
    Resolver holds the two package-level strings and updates them step by
    step as the source does, and its methods are proved to agree with the
    functions. */
module Resolution {
  import opened Wrappers
  import opened KubeConfig

  /** The pair of package-level strings `configFilePath` and `serviceName`. */
  datatype ZitiOptions = ZitiOptions(configFilePath: string, serviceName: string)

  /** What the kubeconfig loader supplies besides the files themselves. */
  datatype Environment = Environment(
    files: Files,
    // the current-context a kubeconfig file names when loaded on its own;
    // a path with no entry is one the loader dies on
    fileCurrentContexts: map<string, string>,
    // the loader's ordered list of kubeconfig files
    precedence: seq<string>,
    // the ambient current context; None when the raw configuration cannot be loaded
    rawCurrentContext: Option<string>)

  // ---------------------------------------------------------------------
  // First-writer-wins, one field at a time

  /** A field keeps its value once it is non-empty: the guarded assignment
      yields the first non-empty of the current value and the candidate. */
  function Fill(current: string, candidate: string): (r: string)
    ensures r == FirstNonEmpty([current, candidate])
  {
    if current == "" then
      assert [current, candidate][1..] == [candidate];
      FirstNonEmptySingle(candidate);
      candidate
    else current
  }

  /** Offers a matched context's two fields to the options, each field on
      its own. */
  function Merge(o: ZitiOptions, c: Context): (r: ZitiOptions)
    ensures r.configFilePath == FirstNonEmpty([o.configFilePath, c.zConfig])
    ensures r.serviceName == FirstNonEmpty([o.serviceName, c.service])
  {
    ZitiOptions(Fill(o.configFilePath, c.zConfig), Fill(o.serviceName, c.service))
  }

  /** The reference definition of first-writer-wins: the first non-empty
      candidate, or "" when all are empty. */
  function FirstNonEmpty(candidates: seq<string>): (r: string)
    ensures r == "" <==> forall k :: 0 <= k < |candidates| ==> candidates[k] == ""
    ensures r != "" ==>
      exists k :: 0 <= k < |candidates| && candidates[k] == r &&
                  forall j :: 0 <= j < k ==> candidates[j] == ""
  {
    if candidates == [] then ""
    else if candidates[0] != "" then candidates[0]
    else FirstNonEmpty(candidates[1..])
  }

  function ZConfigs(cs: seq<Context>): seq<string>
  {
    if cs == [] then [] else [cs[0].zConfig] + ZConfigs(cs[1..])
  }

  function Services(cs: seq<Context>): seq<string>
  {
    if cs == [] then [] else [cs[0].service] + Services(cs[1..])
  }

  // ---------------------------------------------------------------------
  // The precedence-list scan (getZitiOptionsFromConfigList)

  /** What one file of the list does: its first entry named after the
      current context, if any, is offered to the options. */
  function ScanFile(o: ZitiOptions, doc: MinKubeConfig, currentContext: string): (r: ZitiOptions)
    ensures FirstMatch(doc.contexts, currentContext).None? ==> r == o
    ensures FirstMatch(doc.contexts, currentContext).Some? ==>
      var c := FirstMatch(doc.contexts, currentContext).value;
      r.configFilePath == FirstNonEmpty([o.configFilePath, c.zConfig]) &&
      r.serviceName == FirstNonEmpty([o.serviceName, c.service])
  {
    match FirstMatch(doc.contexts, currentContext)
    case None => o
    case Some(c) => Merge(o, c)
  }

  /** The options after scanning `paths` in order from `o`; None when some
      file of the list cannot be read, which is fatal. A field that is
      already set is never changed by any file. */
  function ListOptions(files: Files, paths: seq<string>, currentContext: string, o: ZitiOptions): (r: Option<ZitiOptions>)
    ensures r.Some? && o.configFilePath != "" ==> r.value.configFilePath == o.configFilePath
    ensures r.Some? && o.serviceName != "" ==> r.value.serviceName == o.serviceName
    decreases |paths|
  {
    if paths == [] then Some(o)
    else
      match ReadKubeConfig(files, paths[0])
      case None => None
      case Some(doc) => ListOptions(files, paths[1..], currentContext, ScanFile(o, doc, currentContext))
  }

  predicate AllReadable(files: Files, paths: seq<string>)
  {
    forall k :: 0 <= k < |paths| ==> paths[k] in files
  }

  /** The matched contexts of a list of readable files, in path order, one
      (the first) per file that has a match. */
  function Matched(files: Files, paths: seq<string>, currentContext: string): seq<Context>
    requires AllReadable(files, paths)
  {
    if paths == [] then []
    else
      var here := match FirstMatch(files[paths[0]].contexts, currentContext)
                  case None => []
                  case Some(c) => [c];
      here + Matched(files, paths[1..], currentContext)
  }

  /** The list scan fails exactly when some file on the list cannot be read,
      even one visited after both fields are set. */
  lemma {:induction false} ListOptionsDefined(files: Files, paths: seq<string>, currentContext: string, o: ZitiOptions)
    ensures ListOptions(files, paths, currentContext, o).Some? <==> AllReadable(files, paths)
  {
    if paths != [] && paths[0] in files {
      var o' := ScanFile(o, files[paths[0]], currentContext);
      ListOptionsDefined(files, paths[1..], currentContext, o');
      assert AllReadable(files, paths) <==> AllReadable(files, paths[1..]) by {
        if AllReadable(files, paths[1..]) {
          forall k | 0 < k < |paths| ensures paths[k] in files {
            assert paths[k] == paths[1..][k - 1];
          }
        }
      }
    }
  }

  lemma FillFirst(a: string, c: string, rest: seq<string>)
    ensures FirstNonEmpty([Fill(a, c)] + rest) == FirstNonEmpty([a, c] + rest)
  {
    if a == "" {
      assert ([a, c] + rest)[1..] == [c] + rest;
    } else {
      assert ([Fill(a, c)] + rest)[0] == a;
    }
  }

  lemma FirstNonEmptySingle(a: string)
    ensures FirstNonEmpty([a]) == a
  {
    if a == "" {
      assert [a][1..] == [];
    }
  }

  /** Per-field merge across the list: each field ends as the first
      non-empty value among its starting value and the matched entries'
      values for it, in path order. An earlier file may thus supply the
      service while a later one supplies the identity file. */
  lemma {:induction false} ListOptionsIsFirstNonEmpty(files: Files, paths: seq<string>, currentContext: string, o: ZitiOptions)
    requires AllReadable(files, paths)
    ensures ListOptions(files, paths, currentContext, o) == Some(ZitiOptions(
      FirstNonEmpty([o.configFilePath] + ZConfigs(Matched(files, paths, currentContext))),
      FirstNonEmpty([o.serviceName] + Services(Matched(files, paths, currentContext)))))
  {
    if paths == [] {
      FirstNonEmptySingle(o.configFilePath);
      FirstNonEmptySingle(o.serviceName);
    } else {
      var doc := files[paths[0]];
      var o' := ScanFile(o, doc, currentContext);
      assert AllReadable(files, paths[1..]) by {
        forall k | 0 <= k < |paths[1..]| ensures paths[1..][k] in files {
          assert paths[1..][k] == paths[k + 1];
        }
      }
      ListOptionsIsFirstNonEmpty(files, paths[1..], currentContext, o');
      var rest := Matched(files, paths[1..], currentContext);
      match FirstMatch(doc.contexts, currentContext)
      case None =>
        assert Matched(files, paths, currentContext) == rest;
      case Some(c) =>
        assert Matched(files, paths, currentContext) == [c] + rest;
        MergeThenFirstNonEmpty(o, c, rest);
    }
  }

  /** One matched entry merged into the options is the same as one more
      candidate in front of the later ones. */
  lemma MergeThenFirstNonEmpty(o: ZitiOptions, c: Context, rest: seq<Context>)
    ensures FirstNonEmpty([Merge(o, c).configFilePath] + ZConfigs(rest)) ==
            FirstNonEmpty([o.configFilePath] + ZConfigs([c] + rest))
    ensures FirstNonEmpty([Merge(o, c).serviceName] + Services(rest)) ==
            FirstNonEmpty([o.serviceName] + Services([c] + rest))
  {
    assert ([c] + rest)[1..] == rest;
    FillFirst(o.configFilePath, c.zConfig, ZConfigs(rest));
    FillFirst(o.serviceName, c.service, Services(rest));
    assert [o.configFilePath, c.zConfig] + ZConfigs(rest) == [o.configFilePath] + ZConfigs([c] + rest);
    assert [o.serviceName, c.service] + Services(rest) == [o.serviceName] + Services([c] + rest);
  }

  // ---------------------------------------------------------------------
  // The explicit kubeconfig file (getZitiOptionsFromConfig)

  /** The options after consulting the single file `path` with that file's
      own current context: the last entry of that name fills only the empty
      fields, and without such an entry nothing changes. None when the
      loader dies on the file or the file cannot be read. */
  function FileOptions(files: Files, fileCurrentContexts: map<string, string>, path: string, o: ZitiOptions): (r: Option<ZitiOptions>)
    ensures r.Some? <==> path in fileCurrentContexts && path in files
    ensures r.Some? ==>
      match LastMatch(files[path].contexts, fileCurrentContexts[path])
      case None => r.value == o
      case Some(c) =>
        r.value.configFilePath == FirstNonEmpty([o.configFilePath, c.zConfig]) &&
        r.value.serviceName == FirstNonEmpty([o.serviceName, c.service])
  {
    if path !in fileCurrentContexts then None
    else
      match ReadKubeConfig(files, path)
      case None => None
      case Some(doc) => Some(Merge(o, LastMatch(doc.contexts, fileCurrentContexts[path]).GetOr(EmptyContext)))
  }

  // ---------------------------------------------------------------------
  // Branch choice (parseKubeConfig) and the flag fast path (main)

  /** A non-empty --kubeconfig selects the single file; otherwise the
      loader's precedence list is scanned with the ambient current context,
      whose failure to load is fatal. Either way a field that is already
      set keeps its value. */
  function KubeConfigOptions(kubeconfigFlag: string, env: Environment, o: ZitiOptions): (r: Option<ZitiOptions>)
    ensures kubeconfigFlag == "" ==>
      (r.Some? <==> env.rawCurrentContext.Some? && AllReadable(env.files, env.precedence))
    ensures kubeconfigFlag != "" ==>
      (r.Some? <==> kubeconfigFlag in env.fileCurrentContexts && kubeconfigFlag in env.files)
    ensures r.Some? && o.configFilePath != "" ==> r.value.configFilePath == o.configFilePath
    ensures r.Some? && o.serviceName != "" ==> r.value.serviceName == o.serviceName
  {
    if kubeconfigFlag == "" then
      match env.rawCurrentContext
      case None => None
      case Some(currentContext) =>
        ListOptionsDefined(env.files, env.precedence, currentContext, o);
        ListOptions(env.files, env.precedence, currentContext, o)
    else
      FileOptions(env.files, env.fileCurrentContexts, kubeconfigFlag, o)
  }

  /** The options at the end of start-up: seeded from --zConfig and
      --service, and completed from the kubeconfig only when one of them is
      empty. None when start-up panics. With both flags set no kubeconfig is
      consulted, so the environment may hold nothing loadable; a non-empty
      flag is never overridden by a kubeconfig file. */
  function Resolved(zConfigFlag: string, serviceFlag: string, kubeconfigFlag: string, env: Environment): (r: Option<ZitiOptions>)
    ensures zConfigFlag != "" && serviceFlag != "" ==> r == Some(ZitiOptions(zConfigFlag, serviceFlag))
    ensures r.Some? && zConfigFlag != "" ==> r.value.configFilePath == zConfigFlag
    ensures r.Some? && serviceFlag != "" ==> r.value.serviceName == serviceFlag
  {
    var seeded := ZitiOptions(zConfigFlag, serviceFlag);
    if zConfigFlag == "" || serviceFlag == "" then KubeConfigOptions(kubeconfigFlag, env, seeded)
    else Some(seeded)
  }

  /** The explicit file is read with its own current context: the ambient
      current context and the precedence list play no part, not even a
      failure to load the ambient configuration. */
  lemma ExplicitFileIgnoresAmbientConfig(kubeconfigFlag: string, env1: Environment, env2: Environment, o: ZitiOptions)
    requires kubeconfigFlag != ""
    requires env1.files == env2.files && env1.fileCurrentContexts == env2.fileCurrentContexts
    ensures KubeConfigOptions(kubeconfigFlag, env1, o) == KubeConfigOptions(kubeconfigFlag, env2, o)
  {
  }

  /** An earlier file supplies only the service, a later one both fields:
      the service of the earlier file and the identity file of the later one
      are kept. */
  lemma SplitFieldExample()
    ensures
      var fileX := MinKubeConfig([NamedContext(Context("", "svc1"), "dev")]);
      var fileY := MinKubeConfig([NamedContext(Context("/p", "svc2"), "dev")]);
      var env := Environment(map["x" := fileX, "y" := fileY], map[], ["x", "y"], Some("dev"));
      Resolved("", "", "", env) == Some(ZitiOptions("/p", "svc1"))
  {
  }

  /** A file whose current context defines only the identity file leaves the
      service empty, even though another context of the file defines one. */
  lemma SingleFileExample()
    ensures
      var doc := MinKubeConfig([NamedContext(Context("/a.json", ""), "ctx-a"),
                                NamedContext(Context("", "svc"), "ctx-b")]);
      var env := Environment(map["k" := doc], map["k" := "ctx-a"], [], None);
      Resolved("", "", "k", env) == Some(ZitiOptions("/a.json", ""))
  {
  }

  // ---------------------------------------------------------------------
  // The package-level state and the code that updates it

  /** The two package-level strings, updated in place during start-up and
      read by every dial. */
  class Resolver {
    var configFilePath: string
    var serviceName: string

    function Options(): ZitiOptions
      reads this
    {
      ZitiOptions(configFilePath, serviceName)
    }

    /** Seeds both strings from the --zConfig and --service flags. */
    constructor (zConfigFlag: string, serviceFlag: string)
      ensures Options() == ZitiOptions(zConfigFlag, serviceFlag)
    {
      configFilePath := zConfigFlag;
      serviceName := serviceFlag;
    }

    /** Walks the precedence list; in each file the first entry named after
      the current context fills whichever strings are still empty. Returns
      false for the panic on an unreadable file. */
    method FromConfigList(files: Files, precedence: seq<string>, currentContext: string) returns (ok: bool)
      modifies this
      ensures ok <==> ListOptions(files, precedence, currentContext, old(Options())).Some?
      ensures ok ==> Options() == ListOptions(files, precedence, currentContext, old(Options())).value
    {
      var i := 0;
      while i < |precedence|
        invariant 0 <= i <= |precedence|
        invariant ListOptions(files, precedence[i..], currentContext, Options()) ==
                  ListOptions(files, precedence, currentContext, old(Options()))
      {
        var config := ReadKubeConfig(files, precedence[i]);
        if config.None? {
          return false;
        }
        ghost var before := Options();
        var contexts := config.value.contexts;
        var j := 0;
        while j < |contexts|
          invariant 0 <= j <= |contexts|
          invariant FirstMatch(contexts[j..], currentContext) == FirstMatch(contexts, currentContext)
          invariant Options() == before
        {
          var context := contexts[j];
          if currentContext == context.name {
            if configFilePath == "" {
              configFilePath := context.context.zConfig;
            }
            if serviceName == "" {
              serviceName := context.context.service;
            }
            break;
          }
          assert contexts[j..][1..] == contexts[j + 1..];
          j := j + 1;
        }
        assert Options() == ScanFile(before, config.value, currentContext);
        assert precedence[i..][1..] == precedence[i + 1..];
        i := i + 1;
      }
      return true;
    }

    /** Reads the single explicit file with its own current context; the last
      entry of that name (or the zero context) fills whichever strings are
      still empty. Returns false for the loader's or the reader's panic. */
    method FromConfig(files: Files, fileCurrentContexts: map<string, string>, kubeconfig: string) returns (ok: bool)
      modifies this
      ensures ok <==> FileOptions(files, fileCurrentContexts, kubeconfig, old(Options())).Some?
      ensures ok ==> Options() == FileOptions(files, fileCurrentContexts, kubeconfig, old(Options())).value
    {
      if kubeconfig !in fileCurrentContexts {
        return false;
      }
      var currentContext := fileCurrentContexts[kubeconfig];
      var minKubeConfig := ReadKubeConfig(files, kubeconfig);
      if minKubeConfig.None? {
        return false;
      }
      var contexts := minKubeConfig.value.contexts;
      var context := EmptyContext;
      for j := 0 to |contexts|
        invariant context == LastMatch(contexts[..j], currentContext).GetOr(EmptyContext)
      {
        if contexts[j].name == currentContext {
          context := contexts[j].context;
        }
        assert contexts[..j + 1][..j] == contexts[..j];
      }
      assert contexts[..|contexts|] == contexts;
      if configFilePath == "" {
        configFilePath := context.zConfig;
      }
      if serviceName == "" {
        serviceName := context.service;
      }
      return true;
    }

    /** Chooses between the explicit file and the precedence list. */
    method ParseKubeConfig(kubeconfigFlag: string, env: Environment) returns (ok: bool)
      modifies this
      ensures ok <==> KubeConfigOptions(kubeconfigFlag, env, old(Options())).Some?
      ensures ok ==> Options() == KubeConfigOptions(kubeconfigFlag, env, old(Options())).value
    {
      if kubeconfigFlag == "" {
        var precedence := env.precedence;
        if env.rawCurrentContext.None? {
          return false;
        }
        ok := FromConfigList(env.files, precedence, env.rawCurrentContext.value);
      } else {
        ok := FromConfig(env.files, env.fileCurrentContexts, kubeconfigFlag);
      }
    }
  }

  /** Start-up: seed from the flags and consult the kubeconfig only when one
      of the two is still empty. Returns false for a panic. */
  method ResolveAtStartup(zConfigFlag: string, serviceFlag: string, kubeconfigFlag: string, env: Environment)
    returns (r: Resolver, ok: bool)
    ensures fresh(r)
    ensures ok <==> Resolved(zConfigFlag, serviceFlag, kubeconfigFlag, env).Some?
    ensures ok ==> r.Options() == Resolved(zConfigFlag, serviceFlag, kubeconfigFlag, env).value
  {
    r := new Resolver(zConfigFlag, serviceFlag);
    ok := true;
    if r.configFilePath == "" || r.serviceName == "" {
      ok := r.ParseKubeConfig(kubeconfigFlag, env);
    }
  }
}
