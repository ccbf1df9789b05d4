# Docker labels discovery for Prometheus, modelled in Dafny

The service watches a Docker daemon. It finds the running containers that opt in to
scraping through the label `prometheus.io/scrape=true`, resolves one `ip:port`
target and a label set for each of them, and keeps a Prometheus file-based
service-discovery document (a JSON array of `{targets, labels}` groups) in step
with the set of managed containers.

This project models the core of that service:

- `utils.dfy`, module `Utils` (utils.go): the map lookup with a default, Go's
  `strings.Split`/`strings.Join` on one separator, the `k:v,k:v` extra-labels
  parser `parseCSLabels` (as a loop, proved against the function `CSLabels`),
  and the key listing of a map used for port keys and network names.
- `resolver.dfy`, module `Resolver` (docker_handler.go): the opt-in test and
  `findHostPortAndPathForContainer`, split along the source's own comments into
  port selection, address selection and label assembly. The inspect result is an
  input (`Inspection`), and its failure is the `Failed` outcome. The reasons for
  skipping a container are named (`NotOptedIn`, `AmbiguousPort`, `NonTcpPort`,
  `StrictNetwork`, `NoNetwork`). The ghost functions `PortOf`, `AddressOptions`
  and `LabelsFor` and the predicate `Resolves` state the rules on their own terms.
  The methods are proved against them. The fallback network is whichever key Go's
  map iteration lists first, so `AddressOptions` gives the set of admissible
  addresses and the method is proved to pick one of them.
- `events.dfy`, module `Events` (docker_handler.go): the start/die classification
  of the event listener, and the opt-in filter of the container listing.
- `registry.dfy`, module `Registry` (docker_handler.go): the class
  `DockerHandler`. It holds the map `managedContainers` from container id to
  target group, plus a ghost log `written` of the snapshots handed to the file
  writer. Its methods are the add batch, the remove batch and the `handle` loop
  that applies batches in arrival order. The ghost functions `Step` and
  `KeysAfter` give the key set after a sequence of batches. The lemmas prove
  convergence from them.
- `wrappers.dfy`, module `Wrappers`: `Option` and `Result`.

Behaviour of the code worth knowing:

- The port label is used only when it is present and non-empty (`port == ""`,
  docker_handler.go:241). An empty port label falls back to the port map.
- The IP label is tested the same way (`ip == ""`, docker_handler.go:261). An empty
  IP label therefore behaves like a missing one. The address on the preferred
  network is used even when it is empty.
- The port comes from the port map's key, which is the container-side port
  (docker_handler.go:242, 251). The host port a binding publishes is never used.
  A container whose single TCP key `8080` is bound to host port `32768` is scraped
  at `ip:8080` (`SingleTcpPortScenario`).
- `handle` runs the listing once (docker_handler.go:91). `pollDockerContainers` is
  never called, so there is no periodic poll.
- A container that stops qualifying while running is never removed on
  re-inspection. Only a `die` event removes an entry.

## Model

| member | source | states |
|---|---|---|
| Utils.GetFromMapOrDefault | utils.go:9-16 | the stored value whenever the key is present, even an empty one; the default only when it is absent |
| Utils.Split | utils.go:44-46 | Go's `strings.Split` on one separator: always at least one piece, and no piece contains the separator |
| Utils.SplitWhole | utils.go:44-47 | a string is its own single piece exactly when it has no separator, so "" splits into [""] and a segment without a colon is a one-element split |
| Utils.JoinPieces | utils.go:50 | Go's `strings.Join`: no pieces give ""; otherwise the result starts with the first piece, followed by the separator when more pieces follow |
| Utils.JoinSplit | utils.go:44-50 | joining the pieces of a split with the same separator gives the string back (what makes `strings.Join(z[1:], ":")` recover the text after the first colon) |
| Utils.SplitJoin | utils.go:44 | splitting the join of a non-empty list of separator-free pieces gives back exactly those pieces (the empty list joins to "", which splits into [""]) |
| Utils.SplitAppend | utils.go:44-48 | splitting `s + sep + t` gives the pieces of `s` followed by the pieces of `t` |
| Utils.SegmentKeyValue | utils.go:46-50 | a segment with a colon maps the text before its first colon to everything after it, inner colons kept; a segment without a colon maps the whole segment to "" |
| Utils.ParseCSLabels | utils.go:39-54 | the loop over the comma-separated segments builds exactly `CSLabels(labels)`, the empty map for "" |
| Utils.EmptyLabels | utils.go:40-43 | the empty label string parses to the empty map |
| Utils.AssignKeys | utils.go:44-53 | the parsed keys are exactly the segments' names, and there are at most as many keys as segments |
| Utils.AssignLastWins | utils.go:44-53 | a segment whose name no later segment repeats decides that name's value (later segments win) |
| Utils.TrailingComma | utils.go:44-48 | a trailing comma adds the key "" with the value "" |
| Utils.SingleSegment | utils.go:44-50 | a non-empty label string without a comma is one segment and yields exactly one key (the empty string yields no key, `EmptyLabels`) |
| Utils.CSLabelsRoundTrip | utils.go:38-54 | parsing the comma-join of `k:v` pairs with distinct names free of `,` and `:`, and values free of `,`, gives back exactly those pairs |
| Utils.MapKeys | utils.go:18-36 | the listing has the map's size and holds every key exactly once (order unspecified) |
| Resolver.ContainerIsManaged | docker_handler.go:319-323 | managed iff the labels hold `prometheus.io/scrape` with the exact value "true" |
| Resolver.MergeLabels | docker_handler.go:286-293 | every label of the source map lands in the result, overwriting; the other labels of the target map are kept; nothing else appears |
| Resolver.FindPort | docker_handler.go:240-252 | the result is `PortOf`: a non-empty port label verbatim, else the container port of the only port key if it is TCP, else `AmbiguousPort` (zero or several keys) or `NonTcpPort` |
| Resolver.FindIp | docker_handler.go:254-281 | skips exactly when `AddressOptions` does, with the same reason, and otherwise returns one of its admissible addresses |
| Resolver.AssembleLabels | docker_handler.go:284-310 | the labels built in place are `LabelsFor`: common, then extra, then id and name, then path, then scheme |
| Resolver.FindHostPortAndPath | docker_handler.go:225-317 | fails exactly when inspection failed; otherwise its outcome satisfies `Resolves` (opt-in, port, address, a single `ip:port` target, the assembled labels) |
| Resolver.ResolvesManaged | docker_handler.go:237-312 | a resolved container is never an error; it is managed iff it opts in and has a port and an address, and then has exactly one target |
| Resolver.NotOptedInIsSkipped | docker_handler.go:313-316 | a container without `prometheus.io/scrape=true` is skipped as not opted in |
| Resolver.PortPolicy | docker_handler.go:241-250 | with no port label, zero or several port keys, or one non-TCP key, exclude the container without an error |
| Resolver.PreferredNetworkWins | docker_handler.go:255-258 | on the preferred network, the target is that network's address and the port, whatever the IP label says |
| Resolver.FallbackNetwork | docker_handler.go:259-280 | off the preferred network with no IP label, strict mode skips; with no network at all the container is skipped; otherwise the address of every attached network is admissible |
| Resolver.LabelPrecedence | docker_handler.go:284-310 | key by key, a target label comes from the last source that sets it: scheme, path, metadata, extra labels, common labels |
| Resolver.ExtraLabelOverridesCommon | docker_handler.go:285-293 | a common label `env:prod` is overridden by the extra label `env:staging` |
| Resolver.StagingExtraLabel | docker_handler.go:289-292 | the extra-labels annotation `env:staging` yields exactly the one label env=staging |
| Resolver.SingleTcpPortScenario | docker_handler.go:237-312 | with metadata off, an opted-in container whose only label is the scrape label, with the single TCP key 8080 bound to host port 32768 and address 10.0.0.5 on the preferred network resolves to the one target `10.0.0.5:8080` with just the common labels |
| Events.Classify | docker_handler.go:153-159 | a container `start` event yields the add batch `[id]`, a container `die` event the remove batch `[id]`, and every other type and action nothing |
| Events.ListenToDockerEvents | docker_handler.go:147-159 | the listener sends, in event order, one batch per start or die event of a container |
| Events.EventBatchesShape | docker_handler.go:153-159 | every batch sent by the listener holds exactly one id, taken from a container event that classifies to it; there are no more batches than events |
| Events.EventBatchesAppend | docker_handler.go:147-159 | the listener handles a stream piecewise: the batches of two streams in a row are those of the first followed by those of the second |
| Events.EventYieldsBatch | docker_handler.go:153-159 | for any events before and after it, a container `start` or `die` event yields its own one-id batch, sent after the batches of the earlier events and before those of the later ones |
| Events.ListDockerContainers | docker_handler.go:114-136 | a listing error or a listing with no managed container sends nothing; otherwise one add batch of the managed ids in list order |
| Events.ManagedIdsMembers | docker_handler.go:126-131 | an id is sent iff some listed container with that id carries the opt-in label |
| Events.ManagedIdsAppend | docker_handler.go:126-131 | the filter keeps list order (it distributes over concatenation) |
| Registry.DockerHandler.constructor | docker_handler.go:72-80 | a new handler has an empty registry and has written nothing |
| Registry.DockerHandler.AddContainer | docker_handler.go:178-189 | one id is inserted iff it is not registered yet and resolves as managed; the inserted entry is its resolution, and otherwise the registry is unchanged |
| Registry.DockerHandler.AddContainersToScrapeConfig | docker_handler.go:167-198 | new keys = old keys + the batch ids that resolve as managed; existing entries are never overwritten or deleted; each new entry is a resolution of its container; the whole updated map is written once iff a key was inserted |
| Registry.DockerHandler.RemoveContainersFromScrapeConfig | docker_handler.go:200-223 | exactly the listed ids that are present are deleted and the other entries are unchanged; the map is written once iff something was deleted |
| Registry.DockerHandler.AddRegisteredIsNoOp | docker_handler.go:182-186 | re-adding ids that are all registered overwrites no entry and writes nothing |
| Registry.DockerHandler.RemoveAbsentIsNoOp | docker_handler.go:207-220 | removing ids none of which is registered deletes nothing and writes nothing |
| Registry.DockerHandler.Apply | docker_handler.go:97-100 | one received batch moves the key set by one `Step` (add the admitted ids, or delete the listed ones); entries that stay keep their values, every new entry is a resolution of its container, and the map is written once iff the key set changed |
| Registry.DockerHandler.Handle | docker_handler.go:93-102 | applying received batches in order leaves the key set `KeysAfter` the batches, with at most one write per batch |
| Registry.StopIsFinal | docker_handler.go:207-215 | an id in a remove batch that no later add batch names ends absent, however the batches before it interleave |
| Registry.StartIsFinal | docker_handler.go:176-190 | a managed id in an add batch that no later remove batch names ends registered |
| Registry.ReAddIsIdempotent | docker_handler.go:182-186 | applying the same add batch twice gives the same key set as applying it once |

## Left out

- Docker client calls (`NewClientWithOpts`, `Ping`, `NetworkList`, `ContainerList`, `ContainerInspect`, `Events`) are not modelled. Their results are inputs: `Inspection`, `Listing`, and a sequence of `Event`s.
- Registry.DockerHandler.AddContainersToScrapeConfig: inspection is a function `inspect` that is fixed for the whole batch. The live daemon could answer differently for the same id later in the batch.
- Registry.DockerHandler.Handle: `inspect` is also fixed for the whole run of batches. The contract states the key set and bounds the number of writes. The values stored per entry are stated by the add and remove methods.
- Goroutines, the two channels, the `select` loops, context cancellation and the mutex are not modelled. `Handle` takes the batches as one sequence, in the order the single consumer receives them. Locking only serialises, and a sequential model already has that.
- `pollDockerContainers` and `time.Tick` are not modelled. The timer loop is never started in this code.
- `log.Fatalf` on an event-stream error and all logging are not modelled.
- The Prometheus file writer (prom_file_handler.go) is not modelled: JSON encoding, the file write, its errors, and the `.json` and access checks. A write is recorded as the snapshot appended to the ghost log `written`.
- `newDockerHandler`'s ping and preferred-network check are not modelled. The constructor models only the empty registry.
- main.go (configuration from the environment, flags, signals, HTTP server) and metrics.go are not modelled.
- Port keys: Docker's `nat.Port` text `8080/tcp` is modelled directly as the pair `PortKey(port, proto)`. Its parsing is not modelled.
- The never-taken branch at docker_handler.go:273-277 (a listed network name missing from the same map) has no outcome of its own. `FindIp` proves that the listed name is always in the map.
- The prefix `model.MetaLabelPrefix` and the labels `model.MetricsPathLabel` and `model.SchemeLabel` of Prometheus's `model` package use their published values (`__meta_`, `__metrics_path__`, `__scheme__`).
