# AtroK: verified model of the reconcile engine

AtroK is a Kubernetes operator. It compiles one `AppBundle` spec into a family of cluster
objects and drives the cluster towards them with six reconcilers that run concurrently.
This project models that engine in Dafny and proves what it is for: passes converge, the
compiled objects fit together, base inheritance is a proper merge algebra, claims are never
lost, the locks cannot deadlock and the state cache answers what it should.

`dafny verify dfyconfig.toml` checks everything.

## How it is built

- **The compilers** (`Deployment`, `ConfigMounts`, `Service`, `Ingress`, `ConfigMap`,
  `ExternalSecret`, `Claims`) are methods with the loops of the Go code, each proved equal to
  a specification function; `CompiledObjects` says what these mean against the spec, item by
  item, and `CrossObject` relates them to each other. Go slices are a
  backing array with a length and a capacity (`GoSlices`), so an append into a shared array
  overwrites what the original overwrites.
- **The API server** (`Api`) is a map from kind, namespace and name to labels and a spec
  value, changed by atomic calls. `DeepDerivative` is the one-way comparison on value trees.
- **The reconcilers** exist twice: as programs of API calls (`Programs`) and as sequential
  methods (`Reconcilers`) whose client object proves, call by call, that the method is a run
  of the program and ends with the program's error. The methods terminate whatever the server
  answers, and `Interleaving.NoEndlessPass` proves that no pass of the programs is endless.
- **A pass** (`Interleaving`) is any interleaving of the six programs. After the first error
  the context is cancelled and any later call may come back cancelled, with or without
  having taken effect. `Locality` shows that the six keep to disjoint kinds, `SoloRuns`,
  `IngressRuns` and `ClaimRuns` say what each does alone, `Progress` and `Convergence` put the
  whole runs of a bundle together, `Settling` says which bundles settle at all and `Tightness`
  that no smaller bound on the failures holds.
- **What is delivered**: `StoredObjects` reads the parts of a stored object, and `Delivered`
  says where a bundle's objects stand in the cluster and that the references between them
  lead somewhere.
- **Several bundles** on one cluster: `SharedCluster` is the general argument, `Neighbours`
  proves that bundles fail as if alone and that compatible ones settle together, `Collisions`
  that compatibility is also necessary, and `ClaimHistories` follows the claims.
- **Base inheritance** (`BaseInheritance`) merges along a chain of bases, in place;
  `ResolvedFields` says what each field, and each entry of each map, comes to.
- **Locks** (`LockOrder`, `LockScripts`, `MutexRegistry`) are processes that take mutexes,
  fork children and wait for them. **The cache** (`StateCache`, `BaseLoop`, `Controllers`) is
  a table of shared heap objects with a ghost history.

## Assumptions

- The server stores a value that the sent one derives from, and keeps labels as sent. It
  rejects an update only when a Deployment's selector would change, and a call fails
  otherwise only when the object is missing, exists already or the context was cancelled.
- While a bundle's pass runs nobody else writes its objects; pods change only through the
  deletes of the ConfigMap reconciler.
- Bundles have names. An empty text in what is sent leaves the stored text open, as it does for
  the comparison the operator makes.
- `mergo` fills empty destination values only, through structs and non-nil pointers, copies a
  whole map into a nil one and otherwise asks the map transformer. The copier keeps all fields.
- The spec hash is deterministic and not empty. `append` grows a full array by some function
  `grow` of its capacity; every theorem holds for every such function.
- Each error is one of: not found, immutable selector, anything else.

## Where the code and a casual reading differ

The model follows the code.

- A base *overwrites* the string-valued maps of the bundle (`base_controller.go:186` leaves
  strings out), and `case string` at `appbundle_types.go:42-46` is never reached from there.
- A second base that cannot be read ends the chain silently (`base_controller.go:160-161`
  returns the earlier nil error); only a missing first base is an error.
- `UpsertResource` returns the original error after a successful delete and create.
- `ReconcileExternalSecret` upserts with the error read before its own delete, so replacing a
  stale ExternalSecret always fails once.
- `append(volumeMounts, ...)` in the config loop may share its array: an init container can
  end up with another config's mount in its last slot.
- `UpdateState` has no caller, so `LastReconciliation` stays at the epoch and every known
  object needs updating.
- Configs that bind one secret key to different remotes make the ExternalSecret depend on Go's
  range order, and the bundle then fails again and again (`Settling`).
- Two bundles can never be right at once exactly when they are not compatible: when they want
  one ingress, manage one claim, or one manages a claim that the other mounts while wanting
  label keys it does not have. The first two need names that continue each other, such as `web`
  and `web-a`; the third does not (`Collisions.BothRightIff` and the two examples there).
- A ConfigMap restart can be lost: a pass cancelled between the write and the pod's deletion
  leaves the pod as it is, and no later pass restarts it (`SoloRuns.RestartCanBeLost`).
- Two bases that name each other make the resolution recurse for ever.

## Model

| member | source | states |
|---|---|---|
| Settling.SettlesIff | internal/controller/controller.go:61-71 | the failures of a bundle are bounded, over all starting clusters, interleavings and range orders, if and only if its spec is complete and no two configs bind one secret key to different remotes; three is then a bound |
| Settling.AConflictedBundle | internal/controller/secrets.go:35-39 | a concrete bundle, complete but with two configs in conflict, whose failing passes no number bounds |
| Settling.OrdersDisagree | internal/controller/secrets.go:35-39 | with a conflict there are two range orders of which the second one's ExternalSecret does not derive from the first one's |
| Settling.IncompleteFails | internal/controller/deployment.go:46-51 | a spec that does not compile makes every pass fail |
| Settling.PassExists | internal/controller/helpers.go:110-123 | from every cluster, in every range order, some pass of the six reconcilers finishes |
| Tightness.EveryCauseFails | internal/controller/helpers.go:110-123 | for any such programs, from every cluster, some history fails exactly as often as there are causes: the bound of Progress.TotalFailures is exact |
| Tightness.MostFailures | internal/controller/controller.go:61-71 | the greatest number of failing passes of a bundle from a cluster is the number of causes in that cluster |
| Tightness.ThreeFailures | internal/controller/controller.go:61-71 | every compilable bundle with a generated config and something to fetch has a history with exactly three failing passes |
| Tightness.DemandingBundle | internal/controller/secrets.go:22-100 | a concrete bundle of that kind |
| Convergence.Converges | internal/controller/controller.go:61-71 | in every run of passes over a bundle that compiles, from every cluster and under every interleaving and range order, at most three passes fail (one of the first four succeeds); a pass that succeeds leaves every object derived from what is expected, and every later one succeeds, makes no call that writes and leaves the cluster as it is |
| Convergence.NilReturnsAreDone | internal/controller/helpers.go:110-123 | in every finished pass, failed or not, the objects of each reconciler that returned nil are as expected |
| Convergence.CompilesIff | internal/controller/controller.go:61-68 | the convergence theorem applies, among bundles without backup and conflicts, exactly to those whose volumes have paths, whose sourced variables have sources and that have a store if anything is to be fetched |
| Convergence.RangeOrderInvisible | internal/controller/secrets.go:35-39 | without conflicting bindings the order in which Go ranges over the configs cannot be seen in the compiled ExternalSecret |
| Delivered.NilMeansInPlace | internal/controller/helpers.go:110-131 | in every finished pass, failed or not, what a reconciler returned nil for is at its own key, kind, namespace and name written out, with its labels and up to date, or absent when nothing is expected |
| Delivered.FourPassesDeliver | internal/controller/controller.go:61-71 | in every run of passes over a bundle that compiles, everything is in its place after the fourth pass and stays exactly as it is |
| Delivered.IngressReachesPods | internal/controller/ingress.go:44-77 | in a delivered cluster: the stored ingress for a route has its domain, and its backend names a Service that exists in its namespace, has a port of that number leading to the route's target, and selects by a label that the pods of the stored Deployment carry |
| Delivered.IngressTlsDelivered | internal/controller/ingress.go:74-77 | its TLS section is for the route's domain, with the secret named after the ingress |
| Delivered.PortDelivered | internal/controller/deployment.go:30-33 | the stored container declares the truncated port of each route |
| Delivered.ConfigIsMounted | internal/controller/deployment.go:98-122 | the stored pod volume of a generated config names a ConfigMap that exists in the pod's namespace and holds, at the key the volume takes, the config's content |
| Delivered.SecretConfigIsMounted | internal/controller/deployment.go:113-121 | the stored pod volume of a config with secrets names the secret that a stored ExternalSecret of the namespace writes, at a key whose template is the config's content |
| Delivered.ClaimIsMounted | internal/controller/deployment.go:53-86 | the stored pod volume of a claim names a claim that exists in the pod's namespace with the wanted label keys and, when it is the bundle's own, with the size asked for |
| Delivered.LocalVolumeDelivered | internal/controller/deployment.go:67-80 | a host path or empty directory is what the stored pod volume is |
| Delivered.SecretEnvDelivered | internal/controller/deployment.go:199-203 | a variable from an external secret: the stored container refers to the secret a stored ExternalSecret writes, at a key whose template mentions a fetched key, and the data section fetches that from the remote bound to it |
| Delivered.ForeignEnvDelivered | internal/controller/deployment.go:189-198 | a variable from a Secret or ConfigMap of the user's: the stored container refers to its named key, the Secret first |
| Delivered.PlainEnvDelivered | internal/controller/deployment.go:173-180 | a plain variable that no sourced one hides is in the stored container with its value |
| Delivered.ConfigMountDelivered | internal/controller/deployment.go:129-153 | a config that is not copied over is mounted in the stored container, read-only, at its directory and file name |
| Delivered.CopyDelivered | internal/controller/deployment.go:130-146 | a config that is copied over has a stored init container that runs the copy, written out |
| Delivered.ContainerDelivered | internal/controller/deployment.go:208-241 | the stored container has the bundle's name, image and tag, pull policy, command and arguments |
| Delivered.PodDelivered | internal/controller/deployment.go:286-327 | and its resources and probes; the pod has the replicas, node selector, when asked for the GPU settings, and what is the same for every bundle |
| Delivered.PodsKeepApart | internal/controller/deployment.go:263-285 | the stored anti-affinity keeps pods that carry the label with the bundle's name on different hosts, and the stored pods carry it |
| Delivered.NoPodRunsOn | internal/controller/config_map.go:78-99 | after a ConfigMap write that returned nil no pod with the bundle's label is left, in whatever namespace |
| Neighbours.EachFailsAtMostThrice | internal/controller/controller.go:61-71 | several bundles on one cluster, compatible or not, their passes alternating in any way: each fails at most three times |
| Neighbours.CompatibleBundlesSettle | internal/controller/controller.go:61-71 | pairwise compatible bundles settle: once each has succeeded and then succeeded again, the cluster is right for all and every later pass of any of them succeeds, writes nothing and changes nothing |
| Neighbours.FairTurnsSettle | internal/controller/controller.go:61-71 | so it does not depend on luck: when each has had four turns and then four more, compatible bundles have settled |
| SharedCluster.EachFailsAsIfAlone | internal/controller/helpers.go:110-123 | for any families of programs that never bring back a cause of another: each fails at most once per cause it had at the start |
| SharedCluster.SettleTogether | internal/controller/helpers.go:110-123 | for any families that also leave alone what another has done: after two rounds of successes no pass fails, writes or changes anything |
| Progress.TotalFailures | internal/controller/helpers.go:110-123 | for any programs that keep to their own kinds and fail only by using up a cause: at most as many failing passes as there are causes |
| Progress.SuccessBy | internal/controller/helpers.go:110-123 | with b causes, pass b + 1 at the latest succeeds, and so does every later one |
| Progress.StaysQuiet | internal/controller/helpers.go:110-123 | after the first success every pass succeeds, makes no writing call and changes nothing |
| Progress.NilMeansDone | internal/controller/helpers.go:110-123 | in a finished pass, failed or not, what returned nil is done |
| Progress.FirstErrorDischarges | internal/controller/helpers.go:110-123 | the program whose error cancels a pass had a pending cause before and has none afterwards, whatever its siblings did |
| Progress.CausesNeverReturn | internal/controller/helpers.go:110-123 | no pass, failed or not, brings a cause back |
| Progress.QuietWhenDone | internal/controller/helpers.go:110-123 | an error-free pass over parts that are all done makes no Create, Update or Delete and leaves the whole cluster as it was |
| Progress.FailedIff | internal/controller/helpers.go:117-122 | the group is cancelled exactly when some reconciler has returned an error |
| Interleaving.ErrorFreePassIsSerial | internal/controller/helpers.go:110-123 | every interleaving of an error-free pass reaches a cluster that running the programs one after the other reaches too, whatever order they run in |
| Interleaving.ShareIsSolo | internal/controller/helpers.go:110-123 | what a pass does to one program's kinds is a run of that program alone |
| Interleaving.FirstToFail | internal/controller/helpers.go:115-122 | the program that fails first has had a complete run against a truthful server, alone on its kinds |
| Interleaving.NeverStuck | internal/controller/helpers.go:110-123 | while a program has not returned, some call can be answered |
| Interleaving.TameEnds | internal/controller/helpers.go:110-123 | from every cluster a program that keeps to its kinds has a run to its end against a truthful server |
| Interleaving.NoEndlessPass | internal/controller/helpers.go:110-123 | whatever the server answers and however the programs interleave, no infinite sequence of enabled moves exists |
| Interleaving.PassFinishes | internal/controller/helpers.go:110-123 | from every state of a pass it can be finished |
| Interleaving.PassAborts | internal/controller/helpers.go:110-123 | once cancelled, a pass can end without another effect on the cluster |
| Interleaving.SharesSpare | internal/controller/helpers.go:110-123 | when no program alone makes a writing call, neither does the pass |
| Locality.ReconcilersKeep | internal/controller/controller.go:61-68 | each of the six reconcilers keeps to its own kinds and comes to an end, whatever the server answers, and the kinds are disjoint |
| Locality.ReconcilersAreSerial | internal/controller/controller.go:61-68 | confluence for the operator's own six reconcilers, in each of their orders |
| Reconcilers.UpsertResource | internal/controller/helpers.go:65-98 | issues exactly the calls of the upsert program: create when not found, update otherwise, delete and create when the selector is immutable and deletion allowed, with the original error returned after that |
| Reconcilers.ReconcileDeployment | internal/controller/deployment.go:333-367 | the method is a run of the Deployment program to its end, with its error, on any server |
| Reconcilers.ReconcileService | internal/controller/service.go:104-149 | likewise for the Service; the bundle keeps everything but the defaulted service type |
| Reconcilers.ReconcileIngress | internal/controller/ingress.go:92-174 | likewise for the ingresses: list, delete the unexpected, upsert the expected in key order |
| Reconcilers.ReconcileConfigMap | internal/controller/config_map.go:46-102 | likewise for the ConfigMap and the restart of the one pod |
| Reconcilers.ReconcileExternalSecret | internal/controller/secrets.go:103-151 | likewise for the ExternalSecret, in whatever order the configs are ranged over: delete, then upsert with the stale error |
| Reconcilers.ReconcileVolumes | internal/controller/volumes.go:51-97 | likewise for the volumes in key order |
| Reconcilers.ReconcileExistingPVC | internal/controller/volumes.go:100-129 | the calls for an existing claim: only labels are added, the claim's own values win |
| Reconcilers.ReconcilePVC | internal/controller/volumes.go:132-177 | the calls for a claim of the bundle's own: spec first, labels otherwise, never a delete |
| SoloRuns.UpsertRun | internal/controller/helpers.go:66-98 | what one upsert leaves behind on any server, and on a truthful one exactly when and how it fails |
| SoloRuns.DeploymentRun | internal/controller/deployment.go:349-366 | alone on a truthful server it fails exactly when the selector of an existing Deployment must change, and the Deployment is right afterwards either way; whenever it returns nil the Deployment is right, and it makes no writing call when it was right before |
| SoloRuns.DeploymentKept | internal/controller/helpers.go:83-93 | a Deployment whose selector stays is never deleted, even when calls come back cancelled |
| SoloRuns.ServiceRun | internal/controller/service.go:111-149 | alone on a truthful server it never fails; whenever it returns nil the Service is right, and it makes no writing call when the stored Service was current |
| SoloRuns.SecretRun | internal/controller/secrets.go:119-150 | fails exactly when a stale ExternalSecret is there; the stale one is then gone, and no cancelled run makes a fresh one stale; it makes no writing call when nothing is to be done |
| SoloRuns.ConfigMapRun | internal/controller/config_map.go:53-101 | fails exactly when the ConfigMap must be written while several pods carry the bundle's label; the ConfigMap is right afterwards; a nil return after a write has left no labelled pod running, and a ConfigMap that was right before means that nothing, pods included, is touched |
| SoloRuns.RestartCanBeLost | internal/controller/config_map.go:78-99 | whenever the ConfigMap must be written, some cancelled run writes it and leaves all pods; as it is right from then on, no later pass restarts them |
| IngressRuns.IngressRun | internal/controller/ingress.go:111-171 | whenever it returns nil, on any server, every ingress that carries the bundle's label in its namespace is expected and every expected one is there and derived from; nothing else is touched; on a truthful server it does return nil, without a writing call when all was done |
| ClaimRuns.VolumesRun | internal/controller/volumes.go:51-97 | with the existing claims there, every claim is done whenever it returns nil; on a truthful server it does, without a writing call when they were done before |
| ClaimRuns.VolumesRunSafe | internal/controller/volumes.go:100-177 | on any server no claim disappears, and one the bundle does not manage keeps its spec and label values |
| ClaimRuns.VolumeLoopAt | internal/controller/volumes.go:100-129 | at one claim the bundle does not manage: success means that it has the wanted label keys, having them means that it is left alone |
| ClaimHistories.ClaimsSurviveEveryRun | internal/controller/controller.go:61-68 | over all histories of complete passes of any bundles, failed or not, on any server, no claim is deleted and one that nobody manages only gains label keys |
| ClaimHistories.SharedClaimSettles | internal/controller/volumes.go:100-129 | once the volume reconciler of every bundle still reconciled has returned nil once, no later pass changes a claim that none of them manages, in any order of passes on any server, and none makes a call that could write it unless the server lies about what it holds |
| DeepDerivative.DerivesReflexive | internal/controller/deployment.go:352-355 | every value derives from itself, so an object stored as sent is up to date |
| DeepDerivative.DerivesTransitive | internal/controller/deployment.go:352-355 | what is stored for an update still derives from what was first expected |
| DeepDerivative.DerivesAntisymmetric | internal/controller/deployment.go:352-355 | derivation both ways is equality: with the two laws above it is a partial order |
| DeploymentEncoding.NoDeploymentNeverMatches | internal/controller/deployment.go:349-356 | a Deployment that was not found never passes for up to date |
| DeploymentCompiler.CreateExpectedDeployment | internal/controller/deployment.go:17-330 | the loops over routes, volumes, configs and environment, on slices that share arrays, compute the specified Deployment, pod anti-affinity included, or the first error |
| DeploymentCompiler.DeploymentCompilesIff | internal/controller/deployment.go:38-51 | compilation succeeds if and only if every volume has a path and every sourced variable a source |
| CompiledObjects.EffectiveEnv | internal/controller/deployment.go:173-206 | what the container finds under a name, of several entries the last: a sourced variable by precedence of Secret, ConfigMap and the bundle's own secret key `env` and name, else the plain one, else the NVIDIA default when asked for, else nothing |
| CompiledObjects.ContainerPortsMeaning | internal/controller/deployment.go:30-33 | the declared container ports are exactly the routes' ports, truncated to 32 bits |
| CompiledObjects.VolumeMounted | internal/controller/deployment.go:38-86 | each volume is mounted at its path from a pod volume that is its host path, else an empty directory, else the claim it names, else the claim named after bundle and key |
| CompiledObjects.ConfigVolume | internal/controller/deployment.go:98-127 | each config is one key of an existing ConfigMap, else of the bundle's own, else of its secret under `cfg` and key |
| CompiledObjects.ConfigMounted | internal/controller/deployment.go:128-153 | a config that is not copied over is mounted read-only as its file |
| CompiledObjects.ConfigCopied | internal/controller/deployment.go:130-146 | a config that is copied over has an init container that copies it to its place; the mount it copies from is there if and only if the slot was not overwritten |
| DeploymentCompiler.PodsRepelEachOther | internal/controller/deployment.go:263-285 | the pods of two Deployments repel each other if and only if one selects the other's, which is when their bundles have one name |
| DeploymentCompiler.ToInt32 | internal/controller/deployment.go:32 | int32 truncation: congruent to the 64-bit port modulo 2^32 and in range |
| GoSlices.Append | internal/controller/deployment.go:105-133 | an append writes into the shared array when there is room, and otherwise leaves the old one alone and moves |
| ConfigMounts.MountConfigs | internal/controller/deployment.go:92-157 | on arrays, after the last append, the main mounts are exactly those appended and the init containers those of the slot theorem |
| ConfigMounts.KeepsOwnMountIff | internal/controller/deployment.go:125-143 | a copy-over container ends with its own temporary mount if and only if the slice was full at its append or its config is last in key order; its earlier mounts are intact always |
| ConfigMounts.WriterIsFirstDirect | internal/controller/deployment.go:127-153 | the mount found in a shared slot is that of the next directly mounted config, or of the last config when there is none |
| CrossObject.OverwrittenMount | internal/controller/deployment.go:127-153 | a concrete bundle whose only init container ends with the mount of another config |
| CrossObject.CopyOverKeepsMountIff | internal/controller/deployment.go:92-157 | the slot theorem for the configs of every bundle |
| CrossObject.MainMountsNameVolumes | internal/controller/deployment.go:38-86 | every mount of the main container names a volume of the pod |
| CrossObject.InitMountsNameVolumes | internal/controller/deployment.go:92-157 | so does every mount of every init container, even after its slot was overwritten |
| CrossObject.VolumeNamesDistinctIff | internal/controller/deployment.go:53-124 | the pod volumes have distinct names if and only if no two volume keys or existing claims, and no claim or key and generated `cm-` or `sec-` name, coincide; two configs never do |
| CrossObject.MountedSource | internal/controller/deployment.go:98-127 | with distinct names the volume that a config's mount names is the config's own source |
| CrossObject.GeneratedKeysAgree | internal/controller/config_map.go:24-40 | the generated ConfigMap keys the Deployment mounts are exactly the keys of the expected ConfigMap, which is nil if and only if there are none |
| CrossObject.EveryMountedKeyWrittenIff | internal/controller/deployment.go:98-122 | all mounted keys of the bundle's own ConfigMap are written if and only if no config names that ConfigMap as an existing one |
| CrossObject.SecretKeysAreTemplated | internal/controller/deployment.go:187-206 | with a store set: every variable from an external secret has an entry, every such entry refers to the ExternalSecret's target and to a template key with that variable's text, and every `cfg` key of a pod volume is a template key |
| CrossObject.EnvTemplatesHaveData | internal/controller/secrets.go:45-75 | every `env` template mentions, in its text, a key that has a data entry |
| CrossObject.ServiceTypeInvisible | internal/controller/service.go:68-71 | the one write to the shared spec during a pass changes no answer of the Service and Deployment compilers |
| CrossObject.ServiceTypeInvisibleElsewhere | internal/controller/service.go:68-71 | nor of the ConfigMap, ExternalSecret, ingress and claim compilers |
| ConfigMapCompiler.CreateExpectedConfigMap | internal/controller/config_map.go:14-43 | the loop collects exactly the generated configs, and nothing when there are none |
| CompiledObjects.ConfigMapMeaning | internal/controller/config_map.go:24-40 | its keys are the configs that exist nowhere else and hold no secrets, and each holds its content |
| ExternalSecretCompiler.CreateExpectedExternalSecret | internal/controller/secrets.go:22-100 | for every order in which the runtime may range over the configs, the loops compute the specified result for that order |
| CompiledObjects.SourcedEnvIsServed | internal/controller/secrets.go:41-71 | for every sourced variable from an external secret: the container's entry names the target of the expected ExternalSecret and a template key whose text is that variable's, and the variable is fetched from where the bundle binds it |
| CompiledObjects.DataMeaning | internal/controller/secrets.go:50-62 | the data section fetches exactly the bound keys, each once: from where the last config in range order binds it, else from where the variable says |
| CompiledObjects.TemplateKeysMeaning | internal/controller/secrets.go:64-75 | there is a template for each variable from an external secret and each config with secrets, and no other |
| CompiledObjects.EnvTemplateIsFilled | internal/controller/secrets.go:64-69 | the text of a variable's template mentions a key of the data section, fetched from where the bundle binds it |
| CompiledObjects.ConfigTemplateIsContent | internal/controller/secrets.go:71-75 | the template of a config is its content |
| ExternalSecretCompiler.OrderIndependentIffNoConflict | internal/controller/secrets.go:27-75 | with a store set, the result is the same for all range orders if and only if no two configs bind one key to different remotes |
| ExternalSecretCompiler.ConfigBeatsEnv | internal/controller/secrets.go:29-39 | a key bound by a config is never fetched from where a sourced variable says |
| ExternalSecretCompiler.BindMeaning | internal/controller/secrets.go:35-39 | a key is bound by the loop exactly when some config binds it, and its value is one that a config gives it |
| ExternalSecretCompiler.LastConfigDecides | internal/controller/secrets.go:35-39 | of the configs that bind a key the last one in range order gives its value |
| ExternalSecretCompiler.SecretCompilesIff | internal/controller/secrets.go:41-48 | in every range order, compilation succeeds if and only if a store is set or nothing is to be fetched |
| ExternalSecretCompiler.PrefixesApart | internal/controller/secrets.go:45-75 | a template key determines whether it belongs to a variable or a config, and to which |
| ServiceCompiler.CreateExpectedService | internal/controller/service.go:45-101 | the expected labels and spec, and the default written into the shared bundle |
| CompiledObjects.PortOfRoute | internal/controller/service.go:49-66 | a route has exactly one Service port: its truncated port, leading to its truncated target port if it has one and to the port itself otherwise, over its protocol or TCP |
| CompiledObjects.OnePortPerRoute | internal/controller/service.go:49-66 | the Service's ports have distinct names, which are exactly the route keys |
| CompiledObjects.TargetIsDeclaredIff | internal/controller/service.go:53-58 | a route's traffic reaches a container port the Deployment declares if and only if the route has no target port or its target is the port of some route |
| ServiceCompiler.StoredServiceIsFixedPoint | internal/controller/service.go:24-42 | once what was sent derives from what the server stored, so does what the next pass expects with the server's generated fields merged in |
| IngressCompiler.CollectIngressKeys | internal/controller/ingress.go:100-109 | the expected names are those of the routes that want an ingress, in key order |
| IngressCompiler.BackendPortExists | internal/controller/ingress.go:52-72 | the backend of every ingress is a port of the bundle's own Service |
| IngressCompiler.IngressNameInjective | internal/controller/ingress.go:106 | different routes of a bundle get different ingresses |
| CompiledObjects.IngressMeaning | internal/controller/ingress.go:74-77 | the TLS section is for the rule's own host, the route's domain, with a secret named after bundle, key and namespace |
| CompiledObjects.TlsSecretsDiffer | internal/controller/ingress.go:74-77 | two ingresses of a namespace share a TLS secret if and only if they have one name |
| Collisions.BothRightIff | internal/controller/controller.go:61-71 | for two bundles that compile, some cluster is right for both if and only if they are compatible: no wanted ingress and no managed claim in common, and on each managed claim that the other mounts its manager puts the label keys the other wants |
| Bundle.DashedEqualIff | internal/controller/ingress.go:106 | two names and keys give one object name if and only if they are the same pair or one name continues the other by what is missing from its key |
| Collisions.SharedIngressIff | internal/controller/ingress.go:100-109 | bundles of one namespace share an ingress if and only if two of their wanted route keys make up for their names in that way |
| Collisions.IngressCollision | internal/controller/ingress.go:52-72 | two bundles whose ingresses share a name are never both up to date |
| Collisions.ClaimCollision | internal/controller/volumes.go:65 | nor are two bundles that manage claims of one name |
| Collisions.MountedHasLabels | internal/controller/volumes.go:100-129 | a claim that is right for its manager and for a bundle that mounts it: the mounter wants no label key the manager does not put there |
| Collisions.SharedIngressBundles | internal/controller/ingress.go:106 | two concrete bundles, `web` and `web-a`, that are complete and never both have their ingresses done |
| Collisions.MountedClaimBundles | internal/controller/volumes.go:165-173 | two concrete bundles with unrelated names, one managing a claim that the other mounts under a label of its own, whose volumes are never both done |
| ClaimCompiler.ClaimLabelsMeaning | internal/controller/volumes.go:34-48 | every claim names its bundle; when the bundle backs up and the volume does not opt out, exactly the three written-out labels are added and no other changes |
| Delivered.OwnClaimSays | internal/controller/volumes.go:17-48 | label by label, what a claim of the bundle's own is created with: the backup labels when it is backed up, the operator's own, and the user's |
| ClaimCompiler.GetPVCLabels | internal/controller/volumes.go:34-48 | filling the label map key by key yields the labels of ClaimLabelsMeaning |
| ClaimCompiler.ClaimsAgree | internal/controller/volumes.go:63-88 | volume by volume, the reconciler's tests and the Deployment's tests agree on who owns the claim |
| ClaimCompiler.ClaimSetsEqual | internal/controller/deployment.go:53-86 | the claims the pod mounts without an existing claim are exactly those the volume reconciler creates or updates |
| KeyOrder.GetSortedKeys | internal/controller/helpers.go:146-153 | whatever order the map yields its keys in, the result is the one sorted enumeration of them |
| KeyOrder.SortedEnumerationUnique | internal/controller/deployment.go:174-176 | a set of keys has at most one sorted enumeration, which is why equal specs compile to equal objects |
| KeyOrder.StringMapsMatch | internal/controller/helpers.go:179-194 | true if and only if the maps are equal, although only one inclusion is tested |
| KeyOrder.Contains | internal/controller/ingress.go:176-183 | membership |
| KeyLoops.AppendPerKey | internal/controller/deployment.go:30-33 | the append loops yield one item per key in sorted order |
| Bundle.SetDefaultAppBundleLabels | internal/controller/helpers.go:156-177 | the user's labels over the given ones, and the operator's own over both |
| CompiledObjects.LabelsMeaning | internal/controller/helpers.go:156-177 | label by label: the operator's four carry the bundle's name, every other is the user's own, and ArgoCD's instance label is left out |
| BaseInheritance.ResolvableBundle.MergeBase | internal/controller/base_controller.go:147-153 | one base merged into the bundle in place is the one-level merge |
| BaseInheritance.ResolvableBundle.ResolveAppBundleBase | internal/controller/base_controller.go:143-165 | terminates whenever the walk repeats no base and has then merged exactly the bases up to the end of the chain or the first missing one, and succeeds either way |
| BaseInheritance.ResolvableBundle.ResolveForReconcile | internal/controller/controller.go:50-59 | only a missing first base is an error, and then nothing has changed |
| BaseInheritance.TransformMap | internal/controller/base_controller.go:169-201 | key by key, in any order, struct entries are filled and all other entries overwritten |
| BaseInheritance.MergeAssociative | internal/controller/base_controller.go:143-201 | the one-level merge is associative on all fields |
| BaseInheritance.ChainIsOneMerge | internal/controller/base_controller.go:143-165 | walking the chain equals one merge with the flattened chain |
| BaseInheritance.ResolutionIdempotent | internal/controller/base_controller.go:143-165 | resolving a resolved bundle against the same chain changes nothing |
| BaseInheritance.IdempotentOnlyAtTheEnd | internal/controller/base_controller.go:182-195 | on the way the second resolution does change string-valued maps |
| ResolvedFields.ResolvedStringMaps | internal/controller/base_controller.go:182-195 | labels, annotations, node selector and environment: a key is there if and only if somebody along the chain defines it, and the last definition decides its value |
| ResolvedFields.ResolvedStructMaps | internal/controller/base_controller.go:182-195 | sourced variables, routes, volumes and configs: a key is there if and only if somebody defines it, and its value is the fill of all definitions in walking order |
| ResolvedFields.FieldOfFold | api/v1alpha1/appbundle_types.go:40-70 | a field of such an entry is the fold of that field over the definitions |
| ResolvedFields.FoldTakesFirst | internal/controller/base_controller.go:151-153 | folding by a rule that keeps what is set picks the first set value, and nothing set stays unset |
| ResolvedFields.ResolvedIsFold | internal/controller/base_controller.go:143-165 | every field of the spec that one merge combines by a rule is, after a whole chain, the fold of that rule over the specs of the bundle and its bases in walking order |
| ResolvedFields.ResolvedTakesFirst | internal/controller/base_controller.go:143-165 | the general form: a field whose rule keeps what is set takes the first set value of bundle and bases |
| ResolvedFields.ResolvedIdentity | internal/controller/base_controller.go:143-165 | the name is the first that is not empty; namespace, base and tailscale name are the bundle's own whatever the bases say |
| ResolvedFields.ResolvedPlainFields | internal/controller/base_controller.go:143-165 | GPU flag, replicas, secret store, service type, command and args of the resolved bundle are each the first set value in the specs of the bundle and its bases in walking order, where a pointer to a zero value is not set |
| ResolvedFields.ResolvedOpaqueFields | internal/controller/base_controller.go:143-165 | resources, selector and the three probes are the first that is not nil |
| ResolvedFields.ResolvedImage | internal/controller/base_controller.go:143-165 | repository, tag and pull policy, each on its own, are the first set value behind the image pointers of the chain |
| ResolvedFields.ResolvedHomePage | internal/controller/base_controller.go:143-165 | likewise all six fields of the homepage |
| ResolvedFields.ResolvedBackup | internal/controller/base_controller.go:143-165 | and both of the backup |
| ResolvedFields.ResolvedEntryField | api/v1alpha1/appbundle_types.go:40-70 | the general form for map entries: a field of an entry is the first set value among the definitions of its key |
| ResolvedFields.ResolvedVolume | api/v1alpha1/appbundle_types.go:40-70 | every field of a resolved volume is the first set value among the definitions of its key, bundle first |
| ResolvedFields.ResolvedConfig | api/v1alpha1/appbundle_types.go:40-70 | likewise every field of a config, and its secrets key by key |
| ResolvedFields.ResolvedSourcedEnv | api/v1alpha1/appbundle_types.go:40-70 | every field of a sourced variable |
| ResolvedFields.ResolvedRoute | api/v1alpha1/appbundle_types.go:40-70 | and every field of a route, the domain and auth flag of its ingress each on its own |
| BaseInheritance.ResolutionKeepsIdentity | internal/controller/base_controller.go:143-165 | a non-empty name, namespace and base of the bundle survive |
| BaseInheritance.WalkStopsIffNoRepeat | internal/controller/base_controller.go:143-165 | the walk ends if and only if it repeats no base, and has then visited the merged bases in order |
| BaseInheritance.MutualBasesNeverResolve | internal/controller/base_controller.go:153-164 | two bases that name each other: the walk goes on for ever |
| LockScripts.ReconcilesNeverDeadlock | internal/controller/base_controller.go:84-110 | any number of bundle and base reconciles, in any interleaving and on every path through them, can always go on until all have returned; no run is endless and all mutexes are free at the end |
| LockScripts.PartMutexesAreNeverContended | internal/controller/controller.go:61-71 | a reconciler always finds its own mutex free, although names of different bundles may collide |
| LockScripts.NeverTwoBundleMutexes | internal/controller/base_controller.go:84-110 | no process ever holds two bundle mutexes |
| LockScripts.BaseDisciplined | internal/controller/base_controller.go:45-112 | the base reconcile takes its locks in rising rank and gives all back, however many bundles it visits |
| LockScripts.BundleDisciplined | internal/controller/controller.go:18-73 | so does the bundle reconcile with its six children, on every early return |
| LockScripts.BundleTakes | internal/controller/controller.go:18-71 | which mutexes the bundle reconcile and each of its six children take, types and names written out |
| LockOrder.NoDeadlock | internal/controller/framework.go:42-58 | disciplined processes that fork and wait never deadlock |
| LockOrder.RunsAreBounded | internal/controller/helpers.go:110-123 | every step uses up one unit of a finite amount of work |
| LockOrder.PartsAreNeverContended | internal/controller/framework.go:42-58 | a mutex taken only under one guarding mutex, by children that share no part, is free when asked for |
| MutexRegistry.ResourceMutexes.GetMutex | internal/controller/framework.go:42-58 | the registered mutex if there is one, otherwise a fresh one; all others stay and stay distinct |
| MutexRegistry.SameMutexIff | internal/controller/framework.go:42-58 | in every run of calls any two return the same mutex if and only if type and full name are equal |
| MutexRegistry.FullNameEqualIff | internal/controller/framework.go:45 | two objects share a full name if and only if they are the same or the name of one continues the other's by what is missing from its namespace |
| MutexRegistry.FullNameIsNotInjective | internal/controller/framework.go:45 | two objects of different namespaces with one full name |
| MutexRegistry.FullNameWithinNamespace | internal/controller/framework.go:45 | within a namespace full names do tell objects apart |
| StateCache.Cache.RegisterStateIfNotAlreadyRegistered | internal/controller/state.go:46-73 | a new entry with a new object, or the reason why not; known IDs keep their objects |
| StateCache.Cache.UpdateState | internal/controller/state.go:75-95 | hash and time of the shared object are set, only that entry changes, no object is replaced |
| StateCache.Cache.GetState | internal/controller/state.go:97-107 | the stored object itself, or none |
| StateCache.Cache.StateNeedsUpdating | internal/controller/state.go:109-134 | the answer or error as a function of the history |
| StateCache.Cache.ResetHash | internal/controller/base_controller.go:102 | a write through the shared object empties the hash of exactly that entry |
| StateCache.TableMeaning | internal/controller/state.go:46-95 | after every history an entry is what its last deciding event and its last update say |
| StateCache.NoUpdateIff | internal/controller/state.go:109-134 | "no" if and only if the last event that decided the hash was a registration or update with today's hash, the object was reconciled before and at most 30 whole seconds lie between |
| StateCache.TimeWindow | internal/controller/state.go:127-131 | "no" means under 31 seconds, "yes" for time alone means over 30 |
| StateCache.NeverUpdatedAlwaysNeeds | internal/controller/state.go:60-64 | what was never passed to UpdateState needs updating at every time over 30 seconds past the epoch |
| StateCache.InvalidStaysInvalid | internal/controller/base_controller.go:102 | an emptied hash stays empty until the next update, whatever else happens |
| StateCache.IdIsInjective | api/v1alpha1/appbundle_types.go:163-165 | without underscores in names, an ID determines name and namespace |
| StateCache.BaseIdIsNoBundleId | api/v1alpha1/appbundlebase_types.go:72-74 | no base shares an entry with a bundle |
| BaseLoop.InvalidateDependents | internal/controller/base_controller.go:82-112 | exactly the visited bundles that name the base lose their hash, the loop stops early exactly at the first one unregistered or not writable, and its lock actions are the visits of the lock model |
| BaseLoop.DependentsNeedUpdating | internal/controller/base_controller.go:84-110 | after a complete loop every dependent needs updating, and goes on needing it until its state is updated |
| BaseLoop.OthersKeepTheirEntries | internal/controller/base_controller.go:84-110 | other bundles and all bases keep their entries |
| Controllers.BeginReconcile | internal/controller/controller.go:18-48 | fails, skips or proceeds as the cache at the start decides, with known entries kept, and takes the locks of the lock model |

## Left out

- Reconcilers.ReconcileVolumes: without a Backup section; the Longhorn recurring job is an external object.
- Convergence.Converges: the existing claims a bundle mounts must be there; a claim created for a missing one is outside the "stored derives from sent" assumption.
- Settling.SettlesIff: for bundles without a Backup section, over runs that start where the existing claims are there.
- BaseInheritance.MergeAssociative: resources, probes and selectors are opaque and filled when nil; resource maps set on both sides make the original panic and other deep merges of them are not modelled.
- ClaimCompiler.GetPVCLabels: quantities are compared as the text of their size, not parsed.
- DeploymentCompiler.CreateExpectedDeployment: without the annotations, which are the bundle's own map, shared and written by others while a pass runs.
- ServiceCompiler.CreateExpectedService: without the tailscale and homepage annotations it writes into that same map.
- Collisions.BothRightIff: for bundles without a Backup section, as Convergence.Converges.
- Neighbours.CompatibleBundlesSettle: as Convergence.Converges; passes of different bundles do not overlap, as with the controller's single worker.
- Interleaving.ErrorFreePassIsSerial: annotations are not modelled, because the ingress and Service compilers write into the bundle's own annotation map while others read it.
- Nil pointers that the compilers follow without a test (port, image, size, auth, domain) are preconditions, not crashes.
- NodePort and load balancer allocation by the server, and resource version conflicts: passes of different bundles follow each other, as with the controller's single worker.
- The homepage plugin, owner references, log reasons and the text of diffs have no effect on what is proved.
- Error messages: errors are classes, so what an error says is not modelled.
- Command line, scheme registration, metrics, tracing and leader election are wiring.
