/** The kubeconfig documents the resolver reads, seen only through the two
    ziti fields that a context entry may carry (main.go:37-47), and the two
    ways of picking the entry of the current context. */
module KubeConfig {
  import opened Wrappers

  /** The ziti extension of one kubeconfig context. A field missing from the
      YAML document is read as "". */
  datatype Context = Context(zConfig: string, service: string)

  /** One element of the document's `contexts` list. */
  datatype NamedContext = NamedContext(context: Context, name: string)

  /** The minimal parsed view of a kubeconfig file. */
  datatype MinKubeConfig = MinKubeConfig(contexts: seq<NamedContext>)

  /** The zero value of Context. */
  const EmptyContext := Context("", "")

  /** The file system as the resolver sees it: every path that can be read
      and parsed, with its parsed document. A path with no entry is one whose
      read or YAML parse fails, which the source turns into a panic. */
  type Files = map<string, MinKubeConfig>

  /** Reads and parses one kubeconfig file; None stands for the panic. */
  function ReadKubeConfig(files: Files, path: string): (r: Option<MinKubeConfig>)
    ensures r.Some? <==> path in files
    ensures r.Some? ==> r.value == files[path]
  {
    if path in files then Some(files[path]) else None
  }

  /** The context of the FIRST entry named `name`: the precedence-list scan
      stops at the first match in each file. */
  function FirstMatch(contexts: seq<NamedContext>, name: string): (r: Option<Context>)
    ensures r.None? <==> forall k :: 0 <= k < |contexts| ==> contexts[k].name != name
    ensures r.Some? ==>
      exists k :: 0 <= k < |contexts| && contexts[k].name == name && contexts[k].context == r.value &&
                  forall j :: 0 <= j < k ==> contexts[j].name != name
  {
    if contexts == [] then None
    else if contexts[0].name == name then Some(contexts[0].context)
    else
      FirstMatch(contexts[1..], name)
  }

  /** The context of the LAST entry named `name`: the explicit-file lookup
      keeps overwriting its candidate and never stops early. */
  function LastMatch(contexts: seq<NamedContext>, name: string): (r: Option<Context>)
    ensures r.None? <==> forall k :: 0 <= k < |contexts| ==> contexts[k].name != name
    ensures r.Some? ==>
      exists k :: 0 <= k < |contexts| && contexts[k].name == name && contexts[k].context == r.value &&
                  forall j :: k < j < |contexts| ==> contexts[j].name != name
  {
    if contexts == [] then None
    else if contexts[|contexts| - 1].name == name then Some(contexts[|contexts| - 1].context)
    else LastMatch(contexts[..|contexts| - 1], name)
  }

  /** Entries after the first match are never consulted. */
  lemma {:induction false} FirstMatchIgnoresLaterEntries(contexts: seq<NamedContext>, later: seq<NamedContext>, name: string)
    requires FirstMatch(contexts, name).Some?
    ensures FirstMatch(contexts + later, name) == FirstMatch(contexts, name)
  {
    if contexts[0].name != name {
      assert (contexts + later)[1..] == contexts[1..] + later;
      FirstMatchIgnoresLaterEntries(contexts[1..], later, name);
    }
  }

  /** Entries before the last match are overridden by it. */
  lemma {:induction false} LastMatchIgnoresEarlierEntries(earlier: seq<NamedContext>, contexts: seq<NamedContext>, name: string)
    requires LastMatch(contexts, name).Some?
    ensures LastMatch(earlier + contexts, name) == LastMatch(contexts, name)
  {
    var n := |contexts|;
    assert (earlier + contexts)[|earlier + contexts| - 1] == contexts[n - 1];
    if contexts[n - 1].name != name {
      assert (earlier + contexts)[..|earlier + contexts| - 1] == earlier + contexts[..n - 1];
      LastMatchIgnoresEarlierEntries(earlier, contexts[..n - 1], name);
    }
  }

  /** With two entries of the same name, the two lookups disagree: the
      first-match scan sees the first entry, the last-match scan the second. */
  lemma DuplicateEntries(a: Context, b: Context, name: string)
    ensures FirstMatch([NamedContext(a, name), NamedContext(b, name)], name) == Some(a)
    ensures LastMatch([NamedContext(a, name), NamedContext(b, name)], name) == Some(b)
  {
  }
}
