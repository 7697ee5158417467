# kubeztl ziti option resolution, modelled in Dafny

kubeztl is kubectl with its network dial replaced by a dial over an OpenZiti
overlay. Before the kubectl command runs, two package-level strings are
resolved: `configFilePath`, the ziti identity file, and `serviceName`, the
ziti service. They are first seeded from the `--zConfig` and `--service`
flags. When either is still empty, they are completed from the ziti fields
(`zConfig`, `service`) of the current context in the kubeconfig:

- an explicit `--kubeconfig` file is read with that file's own
  `current-context`, and the LAST entry of that name wins;
- otherwise the loader's precedence list is walked in order with the ambient
  current context, and in each file the FIRST entry of that name is used.

In both cases a field is filled only while it is still empty (first writer
wins, field by field). A dial function installed into the REST client
configuration then ignores the requested network and address. It exits with
status 1 when the service name is empty or the identity file does not load.
Otherwise it dials the service through ziti and returns the result unchanged.

Files:

- `wrappers.dfy`: `Option`.
- `kubeconfig.dfy`: the parsed kubeconfig view (`Context`, `NamedContext`,
  `MinKubeConfig`), the file system as a map from path to parsed document
  (`ReadKubeConfig`; a missing path is the panic on a failed read or parse),
  and the first-match and last-match lookups.
- `resolution.dfy`: the pure specification of the resolution
  (`ListOptions`, `FileOptions`, `KubeConfigOptions`, `Resolved`) with its
  lemmas. It also holds the class `Resolver`, which carries the two
  package-level strings. Its methods update those strings with the source's
  loops and are proved equal to the specification. A panic is a `false`
  result (methods) or `None` (functions).
- `dial.dfy`: the dial decision `DialFunc`, which reads the `Resolver` at
  call time, and `WrapConfigFn`.

Two details of the code shape the behaviour:

- The precedence-list scan never stops early. Its `break` (main.go:189)
  leaves only the loop over one file's contexts, so every file on the list is
  read, even after both fields are set. A later unreadable file therefore
  still panics (`ListOptionsDefined`).
- The explicit-file lookup keeps the last matching entry, because its loop
  has no `break` and overwrites its candidate on every match
  (main.go:231-236; `KubeConfig.DuplicateEntries`).

## Model

| member | source | states |
|---|---|---|
| KubeConfig.ReadKubeConfig | main.go:195-216 | reading a kubeconfig succeeds exactly on the paths that can be read and parsed, giving that path's parsed document; None stands for the panic |
| KubeConfig.FirstMatch | main.go:174-190 | the context of the first entry with the given name; None exactly when no entry has that name |
| KubeConfig.LastMatch | main.go:229-236 | the context of the last entry with the given name; None exactly when no entry has that name |
| KubeConfig.FirstMatchIgnoresLaterEntries | main.go:174-190 | entries after the first match in a file, duplicates included, never change the list scan's choice |
| KubeConfig.LastMatchIgnoresEarlierEntries | main.go:231-236 | in the explicit file, a later matching entry overrides every earlier one |
| KubeConfig.DuplicateEntries | main.go:174-236 | with two entries of the same name, the list scan uses the first and the explicit-file lookup the second |
| Resolution.FirstNonEmpty | main.go:180-187 | reference first-writer-wins: the first non-empty candidate, "" exactly when all are empty |
| Resolution.Fill | main.go:180-187 | the guarded assignment of one field yields the first non-empty of its current value and the candidate |
| Resolution.Merge | main.go:239-246 | a matched context's two fields are offered independently, each ending as the first non-empty of the old value and the context's value |
| Resolution.ScanFile | main.go:174-190 | one file of the list leaves the options unchanged when no entry matches, and otherwise merges the first matching entry field by field |
| Resolution.ListOptions | main.go:166-193 | the scan of the precedence list from given options; a field that is already non-empty is never changed by any file |
| Resolution.ListOptionsDefined | main.go:166-216 | the list scan panics exactly when some file on the list cannot be read or parsed, including files visited after both fields are set |
| Resolution.ListOptionsIsFirstNonEmpty | main.go:166-193 | each field ends as the first non-empty value among its starting value and the first-matching entries' values, in path order (per-field merge) |
| Resolution.FileOptions | main.go:218-247 | the explicit file panics exactly when the loader or the reader fails on it; otherwise the last matching entry fills only the empty fields, and with no match nothing changes |
| Resolution.KubeConfigOptions | main.go:140-164 | without --kubeconfig it fails exactly when the ambient raw configuration fails to load or a listed file is unreadable; with it, exactly when the loader or reader fails on that file; set fields are kept either way |
| Resolution.ExplicitFileIgnoresAmbientConfig | main.go:140-164 | with --kubeconfig set, the result does not depend on the ambient current context, its load error, or the precedence list |
| Resolution.Resolved | main.go:74-83 | with both flags set the result is the flag pair whatever the kubeconfig environment holds, even if nothing in it can be loaded; a non-empty --zConfig or --service is never overridden by a kubeconfig file |
| Resolution.SplitFieldExample | main.go:166-193 | an earlier file that supplies only the service and a later file that supplies both resolve to the later file's identity path and the earlier file's service |
| Resolution.SingleFileExample | main.go:218-247 | a file whose current context defines only the identity path resolves to that path and an empty service, although another context defines a service |
| Resolution.Resolver.constructor | main.go:74-75 | the two strings start as the flag values |
| Resolution.Resolver.FromConfigList | main.go:166-193 | the nested loop with its break leaves the strings equal to ListOptions of their old values, and fails exactly when ListOptions does |
| Resolution.Resolver.FromConfig | main.go:218-247 | the overwriting loop followed by the guarded assignments leaves the strings equal to FileOptions of their old values, and fails exactly when FileOptions does |
| Resolution.Resolver.ParseKubeConfig | main.go:140-164 | the branch on --kubeconfig leaves the strings equal to KubeConfigOptions of their old values |
| Resolution.ResolveAtStartup | main.go:74-83 | seeding from the flags and the guarded kubeconfig lookup yield exactly Resolved of the flags and environment |
| Dial.DialFunc | main.go:98-114 | exits with status 1 unless the service name is non-empty and the identity file loads; otherwise dials that service with that identity |
| Dial.EmptyServiceSkipsIdentityLoad | main.go:100-104 | an empty service name exits with 1 whatever the identity loader would answer, so the identity is never loaded |
| Dial.DialIgnoresAddress | main.go:98-114 | the outcome does not depend on the requested network or address |
| Dial.DialAfterResolution | main.go:98-114 | after start-up, a --service flag is the service that is dialed whenever the identity loads, and an empty resolved service exits with 1 |
| Dial.RestConfig.constructor | main.go:116-120 | a REST client configuration starts with the default dialer, which WrapConfigFn replaces |
| Dial.WrapConfigFn | main.go:116-120 | installs the ziti dialer and returns the same configuration object with its other fields unchanged |

## Left out

- YAML parsing, `filepath.Abs` and file reading are abstracted into a map
  from path to parsed document. A missing path stands for every read or
  parse failure, which the source turns into a panic.
- The kubeconfig loader (`clientcmd` loading rules, `RawConfig`,
  `GetLoadingPrecedence`, `GetConfigFromFileOrDie`) is foreign library code.
  Its answers are given inputs: the precedence list, the ambient current
  context (None for a load error), and a map from path to the
  `current-context` of a file loaded on its own (a missing path is the
  loader dying on it).
- The ziti SDK (`config.NewFromFile`, `ziti.NewContextWithConfig`, `Dial`) is
  opaque. Loading is a map from path to identity, and the dial itself is the
  outcome `ZitiDial(service, identity)`, whose connection or error the source
  returns unchanged.
- Dial.WrapConfigFn: `rest.Config` is reduced to its dial hook and one other
  field (`host`), which stands for all the fields the function leaves alone.
- Dial.DialFunc: the `ctx` argument of the dial function is not modelled, since
  the source never reads it. The two error reports written before each exit
  are log output and are not modelled either; only the exit status is.
- Cobra flag registration and parsing, `command.Execute` and its exit status,
  the logging setup and the coloured level names, `rand.Seed` and log
  initialisation are command-line and presentation plumbing.
- Concurrent calls of the dial function by the transport are not modelled.
  The function only reads the two strings, which are no longer written once
  the command runs.
