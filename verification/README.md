# Verification of kubemci

kubemci turns one Kubernetes ingress and a set of clusters into a graph of named
GCP resources: health check, backend service, URL map, target proxy (and SSL
certificate), forwarding rule, and a firewall rule. It updates the graph under a
force flag, shrinks it cluster by cluster, and tears it down. Every command is a
sequence of get, compare and create-or-update calls on a mutable store. Errors
are collected instead of stopping the run, and Go maps are visited in random order.

This project models that reconciler in Dafny and proves what whole runs guarantee.
`dafny verify dfyconfig.toml` checks all of it.

## How the model is built

- `Cloud` is a class with one map per resource kind. A get returns a copy, create
  fails on a taken name, update replaces the record. Every call may be rejected,
  or take effect and still report an error, unless the cloud is `reliable`. A
  `strict` cloud refuses to delete what another resource refers to.
- Each syncer is a class whose methods follow the Go methods step by step. A
  method promises a relation between the store before and after (`Progress`,
  `Outcome`, `CreateRun`, `DeleteRun`, `RemoveRun`) that holds whatever fails on
  the way. The theorems about runs are lemmas about those relations, so they hold
  for every store, every failure and every iteration order.
- `Histories` strings commands together. Each theorem about histories names the
  commands it admits, in `DeleteRuns.Respects`, `Drift.Spares` or `Agreement.Regular`.
- A Go `range` over a map is `RangeOrder`, any enumeration of the keys. A random
  pick is a nondeterministic choice.
- Answers of the clusters and of the GCP calls that only read (service node ports,
  readiness probes, instance groups, named ports, instances, the reserved address,
  TLS secrets) are the functions of a `World`, fixed during one run.

| module | contents |
|---|---|
| `Prelude`, `Sorting` | errors, iteration orders, sorting, filtering |
| `Names`, `GroupLinks`, `Status`, `Validations`, `ProbePaths` | codecs, names, cross-cluster verdicts |
| `Ingress`, `Translation` | the ingress, and its translation into a URL map |
| `Cloud`, `HealthChecks`, `BackendServices`, `UrlMaps`, `TargetProxies`, `SslCerts`, `ForwardingRules`, `FirewallRules` | the store and the syncers |
| `LoadBalancer` | create, delete, remove clusters |
| `CreateRuns`, `Chains`, `CreateSuccess`, `DeleteRuns`, `RemoveRuns`, `Agreement`, `Idempotence`, `Drift`, `LifeCycle`, `EndToEnd`, `Listing`, `Histories` | theorems about whole runs and histories |
| `RuleAliasing` | the aliased forwarding rule, on the heap |

## Assumptions about code outside the repository

- The status codec satisfies `Status.Lawful`: decoding an encoded status gives it
  back, and a description that starts with the letter h does not decode. Any
  codec with these laws will do.
- The hash in a path matcher name is injective on the hosts of the ingress.
- The default backend of an ingress-gce URL map is written under one key and read
  and removed from there (vendor/k8s.io/ingress-gce/pkg/utils/gceurlmap.go:28-65).
- Backend services carry no Iap record.
- A self link is determined by kind and name.

## Where code and documentation disagree

The model follows the code.

- The path check of servicesNodePortsSame builds an error and drops it
  (app/kubemci/pkg/validations/validations.go:61), so only the default backend
  decides. The contract of `Validations.ServicesNodePortsSame` gives the exact
  condition under which the verdict is still the documented one,
  `Validations.PathErrorIsDropped` an input where it is not.
- A probe with an empty HTTP path makes the verdict of getHealthCheckPath depend on
  the order of the clusters (app/kubemci/pkg/gcp/healthcheck/healthchecksyncer.go:98-128).
  `ProbePaths.OrderIndependence` gives the exact condition.
- An ingress rule for the literal host DefaultBackend is overwritten by the default
  backend. `Translation.RoutingExact` gives the exact condition,
  `Translation.DefaultHostIsLost` an ingress. The API server's check that a host is
  a lower-case DNS name stands in front of it.
- Host and path rules are compared in the order in which they were written, so with
  more than one of them a second run can see a difference where there is none.
  `Translation.OrderSensitivity` gives the exact condition for the map,
  `Idempotence.RepeatsAlwaysSucceed` for whole runs.
- The dots in the version pattern match any character
  (app/kubemci/pkg/validations/validations.go:164). `Validations.ReadExactly` says which
  strings are read, `Validations.DottedExactly` which of them are dotted versions, and
  `Validations.NotDotted` is an input.
- A comment says that any firewall priority is fine; the code forgives only the
  default priority (app/kubemci/pkg/gcp/firewallrule/firewallrulesyncer.go:194-198).
  `Drift.PriorityDecides` gives the exact condition, `Drift.Priority500` an input, and
  `Drift.ForceResetsPriority` what force does to it.
- RemoveClusters is documented to report a text that is not a status, and returns it
  unchanged without error instead (app/kubemci/pkg/gcp/status/loadbalancerstatus.go:43-50),
  as the contract of `Status.RemoveClusters` says; `Status.PlainTextIsNoError` is an input.
- A forced update of an SSL certificate deletes it first, which a cloud that
  protects used resources refuses while the HTTPS proxy is there. By
  `Drift.CertificateNeverRotates` a certificate in use cannot be renewed at all.
- Listing treats a nil slice of forwarding rules as an unexpected answer
  (app/kubemci/pkg/gcp/forwardingrule/forwardingrulesyncer.go:184-189), but it is what
  the provider returns for a project without any
  (vendor/k8s.io/kubernetes/pkg/cloudprovider/providers/gce/cloud/gen.go:6435-6456).
  `Listing.ListLoadBalancers` fails exactly then, `Listing.EmptyProjectCannotBeListed`
  is an input.
- The aliased desired forwarding rule means that a status on a forwarding rule is
  never changed, unless the provider hands out its own objects
  (app/kubemci/pkg/gcp/forwardingrule/forwardingrulesyncer.go:331-341).

## Model

| member | source | states |
|---|---|---|
| LoadBalancer.Syncer.CreateLoadBalancer | app/kubemci/pkg/gcp/loadbalancer/loadbalancersyncer.go:109-217 | The run is a `CreateRun`: every stage, in reference order, did to its table what its relation allows with the links the stages before it produced; the result is nil exactly if no stage failed; it stops early only for want of a client, an address, groups or named ports |
| LoadBalancer.Syncer.DeleteLoadBalancer | app/kubemci/pkg/gcp/loadbalancer/loadbalancersyncer.go:222-269 | The run is a `DeleteRun`: each deletion is judged by the referring tables as they are by then; without client it stops, or with force deletes only what needs none and still errs |
| LoadBalancer.Syncer.RemoveFromClusters | app/kubemci/pkg/gcp/loadbalancer/loadbalancersyncer.go:273-339 | The run is a `RemoveRun`: guard, groups, firewall tags, backend groups, status; and exactly why a run in a reliable cloud would stop before writing |
| LoadBalancer.Syncer.GetLoadBalancerStatus | app/kubemci/pkg/gcp/loadbalancer/loadbalancersyncer.go:380-403 | A status found is stored on the URL map or on one of the rules; in a reliable cloud it is the one on the URL map, or if the map carries none the one on the rules, and without a map there is none |
| LoadBalancer.Syncer.RemoveClustersFromStatus | app/kubemci/pkg/gcp/loadbalancer/loadbalancersyncer.go:354-368 | The URL map's status loses exactly the removed clusters, rules never change, and success needs both the URL map and a rule |
| LoadBalancer.HasSomeRemainingClusters | app/kubemci/pkg/gcp/loadbalancer/loadbalancersyncer.go:342-349 | The guard is true exactly if the later filter leaves a cluster |
| LoadBalancer.GetIGs | app/kubemci/pkg/gcp/loadbalancer/loadbalancersyncer.go:467-482 | The groups of every cluster that answers, and an error exactly if one does not |
| LoadBalancer.GetNamedPorts | app/kubemci/pkg/gcp/loadbalancer/loadbalancersyncer.go:485-497 | Without error, the named ports of the first group of one of the clusters |
| LoadBalancer.FlattenGroups | app/kubemci/pkg/gcp/loadbalancer/loadbalancersyncer.go:147-150 | All groups of all clusters and no others, cluster by cluster in some order |
| Ingress.IngToNodePorts | app/kubemci/pkg/gcp/loadbalancer/loadbalancersyncer.go:563-588 | The node ports of all backends that can be found, the default first, then rule by rule |
| Ingress.ResolvedMembers | app/kubemci/pkg/gcp/loadbalancer/loadbalancersyncer.go:563-588 | A service port is among the results exactly if it is the cluster's answer for a backend asked for, with the names it was looked up by |
| Ingress.MentionedExactly | app/kubemci/pkg/gcp/loadbalancer/loadbalancersyncer.go:563-588 | The backends asked for are the default and those of all paths of HTTP rules |
| Ingress.NodePortsInOrder | app/kubemci/pkg/gcp/loadbalancer/loadbalancersyncer.go:563-588 | Node ports come rule by rule and path by path, behind the default |
| Ingress.NamedPortsOfLink | app/kubemci/pkg/gcp/loadbalancer/loadbalancersyncer.go:544-560 | Named ports are asked of the zone and group that a printed link denotes |
| Chains.SuccessfulCreateIsComplete | app/kubemci/pkg/gcp/loadbalancer/loadbalancersyncer.go:109-217 | From any store, forced or not, a nil create leaves a complete chain, described by the fields of the stored records: each port has a health check of its protocol on the path the clusters agree on, and a backend service with its protocol and a named port, pointing to that check, over exactly the groups of all clusters; the URL map refers to those services only and carries the status with the address; the proxies point to it; the rules carry proxy, reserved address and port range; the certificate, and the key where this run wrote it, are those of the secret; the firewall rule opens those ports for the first tags of all clusters, on the network it had or one of theirs; the certificate link too is right unless an existing proxy was force-updated |
| Chains.NoAddressNoCreate | app/kubemci/pkg/gcp/loadbalancer/loadbalancersyncer.go:117-121 | Without the annotation or the reserved address a create fails and writes nothing |
| Chains.OnlyWhatIsAsked | app/kubemci/pkg/gcp/loadbalancer/loadbalancersyncer.go:166-209 | An ingress that forbids HTTP, or asks for no TLS, has those resources untouched; a pre-shared certificate is never written |
| CreateRuns.UnforcedCreateIsMonotone | app/kubemci/pkg/gcp/loadbalancer/loadbalancersyncer.go:109-217 | Without force, on every run and whatever fails, each resource present before is present and unchanged after |
| CreateRuns.CreateWrites | app/kubemci/pkg/gcp/loadbalancer/loadbalancersyncer.go:109-217 | Every run, complete or not, writes only under names of its own load balancer, links only to its own resources, and loses nothing but its own rules and certificate |
| CreateRuns.TranslationRefersToServices | app/kubemci/pkg/gcp/urlmap/urlmapsyncer.go:252-301 | Every service link in a translated URL map is one that was supplied |
| DeleteRuns.DeleteOrderIsSafe | app/kubemci/pkg/gcp/loadbalancer/loadbalancersyncer.go:222-269 | After any history of commands, complete or failed, on this and non-colliding load balancers, from a store in which only its own resources refer to this load balancer (such as an empty one), a delete in a cloud that protects used resources returns nil, leaves nothing of this load balancer for its ports and everything else as it was |
| DeleteRuns.DeleteSucceedsExactlyWhen | app/kubemci/pkg/gcp/loadbalancer/loadbalancersyncer.go:222-269 | From any store, such a delete succeeds if and only if nothing that stays behind refers to what it deletes: the order itself never causes a refusal |
| DeleteRuns.NilDeleteIsComplete | app/kubemci/pkg/gcp/loadbalancer/loadbalancersyncer.go:222-269 | With any failures, a nil result means the store is exactly the old one without this load balancer's resources for those ports |
| DeleteRuns.DeleteTouchesOnlyItsOwn | app/kubemci/pkg/gcp/loadbalancer/loadbalancersyncer.go:222-269 | With any failures, no table changes outside this load balancer's names |
| DeleteRuns.OthersSurviveDelete | app/kubemci/pkg/gcp/loadbalancer/loadbalancersyncer.go:222-269 | Every record under a name of a non-colliding load balancer survives unchanged |
| DeleteRuns.StepKeepsSelfContained | app/kubemci/pkg/gcp/loadbalancer/loadbalancersyncer.go:109-339 | Every command, of this or a non-colliding load balancer, keeps a load balancer referred to by its own resources only |
| RemoveRuns.UnforcedRemoveNeverEmpties | app/kubemci/pkg/gcp/loadbalancer/loadbalancersyncer.go:273-349 | Without force, if the status can only be read from the URL map, a run that passes the guard leaves a stored status that lists a cluster, also if it errs later |
| RemoveRuns.GuardIsTheFilter | app/kubemci/pkg/gcp/loadbalancer/loadbalancersyncer.go:273-349 | A reliable run passes the guard if and only if the filter on the stored status is not empty, and then stores that filter's result |
| RemoveRuns.NilRemoveIsComplete | app/kubemci/pkg/gcp/loadbalancer/loadbalancersyncer.go:273-339 | A nil removal leaves exactly the store without the clusters' tags, groups and status entries |
| RemoveRuns.RemovalTouchesOnlyLists | app/kubemci/pkg/gcp/loadbalancer/loadbalancersyncer.go:273-339 | Whatever fails, a removal changes nothing but the backends of backend services, the target tags of firewall rules (a priority 0 becomes 1000) and the descriptions of URL maps |
| RemoveRuns.RemovalKeepsWiring | app/kubemci/pkg/gcp/loadbalancer/loadbalancersyncer.go:273-339 | So the chain that a create made keeps its ports, paths, port names, routes, addresses, certificates and firewall ports through every removal |
| RemoveRuns.RemovalsAddUp | app/kubemci/pkg/gcp/loadbalancer/loadbalancersyncer.go:300-332 | Removing A then B is removing both at once, for backend groups, firewall tags and status together |
| RemoveRuns.RemovalsCommute | app/kubemci/pkg/gcp/loadbalancer/loadbalancersyncer.go:300-332 | The order of two removals does not matter |
| RemoveRuns.TwoRunsAreOne | app/kubemci/pkg/gcp/loadbalancer/loadbalancersyncer.go:273-339 | Two successful runs on one load balancer, with any clients and force flags, leave what one removal of all their clusters leaves, up to output-only fields |
| RemoveRuns.RemovalCanBeRetried | app/kubemci/pkg/gcp/loadbalancer/loadbalancersyncer.go:273-339 | A removal that failed at any point, followed by a successful one of the same clusters, with any clients and force flag, leaves what one successful removal would have left |
| Agreement.AgreementAlways | app/kubemci/pkg/gcp/loadbalancer/loadbalancersyncer.go:109-339 | After every history of unforced creates, successful forced creates and successful removals that starts with a successful create, on clusters that share no group and no first tag: each backend service is over exactly the groups, and the firewall rule for exactly the first tags, of the clusters in the stored status |
| Agreement.RemoveKeepsAgreement | app/kubemci/pkg/gcp/loadbalancer/loadbalancersyncer.go:300-332 | A successful removal keeps the agreement if and only if no cluster that stays shares a group or the first tag with one that goes |
| Agreement.CreateEstablishesAgreement | app/kubemci/pkg/gcp/loadbalancer/loadbalancersyncer.go:109-217 | From any store, a successful create makes services, firewall and status agree on the given clusters |
| Agreement.FlatWithout | app/kubemci/pkg/gcp/firewallrule/firewallrulesyncer.go:248-286 | Filtering what was collected is collecting from the filtered list, if and only if the survivors have nothing in common with what goes |
| Idempotence.RepeatChangesNothing | app/kubemci/pkg/gcp/loadbalancer/loadbalancersyncer.go:109-217 | After a successful create, an unforced create of the same ingress and ports leaves the store as it is, in any world, any order, whatever fails |
| Idempotence.CreateIsIdempotent | app/kubemci/pkg/gcp/loadbalancer/loadbalancersyncer.go:109-217 | What one repeat returns where the clusters answer alike: nil if and only if service ports of one node port agree, the run renders the URL map in the stored order, and a forced first run found no proxy or rule with a difference that force does not repair |
| Idempotence.RepeatsAlwaysSucceed | app/kubemci/pkg/gcp/loadbalancer/loadbalancersyncer.go:109-217 | Every order of the repeat returns nil if and only if there is at most one host with at most one path, service ports of one node port agree, and there is no such difference |
| Idempotence.SettledStarts | app/kubemci/pkg/gcp/targetproxy/targetproxysyncer.go:146-200 | An unforced success, or absent names, leave no such difference |
| CreateSuccess.CreateSucceedsExactlyWhen | app/kubemci/pkg/gcp/loadbalancer/loadbalancersyncer.go:109-217 | From any store, in a reliable cloud with complete answers: a forced create returns nil if and only if no different certificate is protected by its use, an unforced one if and only if every taken name holds what is wanted, a stored URL map also in the order this run renders |
| CreateSuccess.ForceRecovers | app/kubemci/pkg/gcp/loadbalancer/loadbalancersyncer.go:109-217 | However a create on absent names failed, the same create with force succeeds once the cloud works, and leaves a complete chain |
| CreateSuccess.FreshCreateSucceeds | app/kubemci/pkg/gcp/loadbalancer/loadbalancersyncer.go:109-217 | In a reliable cloud with complete answers a create on absent names succeeds, with a complete chain, if and only if it is forced or service ports of one node port agree |
| Drift.PriorityDecides | app/kubemci/pkg/gcp/firewallrule/firewallrulesyncer.go:181-208 | After a successful create and a change of the firewall priority to p, an unforced repeat changes nothing, and returns nil if and only if p is 0 or 1000 and it would have returned nil without the change |
| Drift.PriorityStage | app/kubemci/pkg/gcp/firewallrule/firewallrulesyncer.go:123-208 | The firewall stage alone: nil if and only if forced or p is 0 or 1000; forced, it writes 1000 back and nothing else |
| Drift.ForceResetsPriority | app/kubemci/pkg/gcp/firewallrule/firewallrulesyncer.go:123-166 | The same for a whole forced create: the priority a user set becomes 1000 again |
| Drift.Priority500 | app/kubemci/pkg/gcp/firewallrule/firewallrulesyncer.go:181-208 | At priority 500 every unforced create fails |
| Drift.CertificateStays | app/kubemci/pkg/gcp/sslcert/sslcertsyncer.go:79-155 | In a cloud that protects used resources no create, forced or not, replaces a certificate in use, and one whose clusters hold a different certificate fails |
| Drift.CertificateNeverRotates | app/kubemci/pkg/gcp/sslcert/sslcertsyncer.go:129-155 | Over every history without a delete of this load balancer the certificate in use stays as it is |
| Drift.CreatedCertificateStays | app/kubemci/pkg/gcp/sslcert/sslcertsyncer.go:129-155 | The same from the first successful create on |
| LifeCycle.DeleteUndoesCreate | app/kubemci/pkg/gcp/loadbalancer/loadbalancersyncer.go:109-269 | Whatever a create on absent names did, complete or failed at any point, a delete with the same ports in a cloud that protects used resources returns nil and restores the store exactly |
| LifeCycle.WalkThrough | app/kubemci/pkg/gcp/loadbalancer/loadbalancersyncer.go:109-269 | A concrete project in which create, create again and delete all return nil: the hypotheses of the theorems can be met together |
| EndToEnd.RequestsReachTheirPort | app/kubemci/pkg/gcp/backendservice/backendservicesyncer.go:56-76 | After a successful create every host and path is sent by the stored URL map to the stored backend service of the node port the ingress means, provided no service name is used with two node ports |
| EndToEnd.OwnPortsExactly | app/kubemci/pkg/gcp/urlmap/urlmapsyncer.go:386-395 | All backends are sent to their own node ports if and only if no service name is used with two of them |
| EndToEnd.ServiceMapMeaning | app/kubemci/pkg/gcp/backendservice/backendservicesyncer.go:63-73 | Of several ports of one service the last one stands for all |
| Translation.IngToUrlMap | app/kubemci/pkg/gcp/urlmap/urlmapsyncer.go:336-384 | The table of hosts and paths with the default backend, and an error exactly if there is no default backend or a backend has no service |
| Translation.PathsToRoutes | app/kubemci/pkg/gcp/urlmap/urlmapsyncer.go:344-360 | The paths of one rule, a later entry replacing an earlier one |
| Translation.RenderUrlMap | app/kubemci/pkg/gcp/urlmap/urlmapsyncer.go:270-299 | Lists every host once with its own path matcher, and every path once, in some order |
| Translation.TableLookup | app/kubemci/pkg/gcp/urlmap/urlmapsyncer.go:270-299 | Looking a host and path up in the rendered map gives what the table has, whatever the order |
| Translation.RoutingPreserved | app/kubemci/pkg/gcp/urlmap/urlmapsyncer.go:252-384 | Every host and path goes to the backend of the last entry of the last HTTP rule, otherwise to the default backend |
| Translation.RoutingExact | app/kubemci/pkg/gcp/urlmap/urlmapsyncer.go:336-384 | This holds for all hosts if and only if a rule for the literal host DefaultBackend says nothing different |
| Translation.DefaultHostIsLost | app/kubemci/pkg/gcp/urlmap/urlmapsyncer.go:336-384 | An ingress whose rule for that host names one service and is sent to another |
| Translation.OrdersRouteAlike | app/kubemci/pkg/gcp/urlmap/urlmapsyncer.go:278-299 | Two iteration orders give route-equivalent maps |
| Translation.EmptyMeansAll | app/kubemci/pkg/gcp/urlmap/urlmapsyncer.go:353-366 | A rule without host and path is found under host * and path /* |
| Translation.LookupRefers | app/kubemci/pkg/gcp/urlmap/urlmapsyncer.go:270-299 | Where a URL map sends a request is a service it refers to |
| Translation.SameRulesInEveryOrder | app/kubemci/pkg/gcp/urlmap/urlmapsyncer.go:278-299 | Every order gives the same host rules and path rules as multisets |
| Translation.OrderSensitivity | app/kubemci/pkg/gcp/urlmap/urlmapsyncer.go:278-299 | Every order gives the identical map if and only if there is at most one host with at most one path |
| UrlMaps.Syncer.EnsureUrlMap | app/kubemci/pkg/gcp/urlmap/urlmapsyncer.go:68-104 | Writes nothing or a translation of the ingress with its status; untouched without force; nil means it is there; in a reliable cloud nil exactly when the flag allows it |
| UrlMaps.Syncer.DesiredUrlMap | app/kubemci/pkg/gcp/urlmap/urlmapsyncer.go:252-318 | A translation of the ingress whose description encodes name, address and sorted clusters |
| UrlMaps.WantedUnique | app/kubemci/pkg/gcp/urlmap/urlmapsyncer.go:252-318 | With at most one route there is one map to want, whatever the orders |
| UrlMaps.Syncer.RemoveClustersFromStatus | app/kubemci/pkg/gcp/urlmap/urlmapsyncer.go:178-201 | The status loses exactly those clusters, the rest of the map stays, NotFound is preserved |
| UrlMaps.Syncer.GetLoadBalancerStatus | app/kubemci/pkg/gcp/urlmap/urlmapsyncer.go:126-146 | The decoded status of the stored map, NotFound preserved |
| UrlMaps.Syncer.DeleteUrlMap | app/kubemci/pkg/gcp/urlmap/urlmapsyncer.go:108-122 | Gone on nil, a missing one is no error, a used one stays in a strict cloud |
| BackendServices.Syncer.EnsureBackendService | app/kubemci/pkg/gcp/backendservice/backendservicesyncer.go:56-76 | One wanted service per supplied port; nil exactly if all were supplied and ensured; the result maps each service name to the last port's service |
| BackendServices.Syncer.EnsureOne | app/kubemci/pkg/gcp/backendservice/backendservicesyncer.go:148-197 | Reconciles one service, or fails without a write when a health check or named port is missing |
| BackendServices.DesiredBackends | app/kubemci/pkg/gcp/backendservice/backendservicesyncer.go:294-313 | The groups, sorted, each as one backend |
| BackendServices.DesiredWithoutClusters | app/kubemci/pkg/gcp/backendservice/backendservicesyncer.go:276-292 | Exactly the given groups are dropped and every other field is kept |
| BackendServices.Syncer.RemoveFromClusters | app/kubemci/pkg/gcp/backendservice/backendservicesyncer.go:98-127 | Each record is as before or lost exactly the groups; nil means all ports' records did |
| BackendServices.Syncer.DeleteBackendServices | app/kubemci/pkg/gcp/backendservice/backendservicesyncer.go:79-94 | On nil all are gone; nothing else is touched; in a reliable cloud nil exactly if none is in use |
| HealthChecks.Syncer.EnsureHealthCheck | app/kubemci/pkg/gcp/healthcheck/healthchecksyncer.go:75-95 | One wanted check per port on a path the clusters yield; nil exactly if all were; the links by node port |
| HealthChecks.Syncer.EnsureOne | app/kubemci/pkg/gcp/healthcheck/healthchecksyncer.go:172-202 | Reconciles one check; other protocols are refused |
| HealthChecks.WantUnique | app/kubemci/pkg/gcp/healthcheck/healthchecksyncer.go:75-128 | Where the clusters agree on the probe, every order wants the same check |
| HealthChecks.Syncer.DeleteHealthChecks | app/kubemci/pkg/gcp/healthcheck/healthchecksyncer.go:132-146 | As for backend services |
| ProbePaths.GetHealthCheckPath | app/kubemci/pkg/gcp/healthcheck/healthchecksyncer.go:98-128 | If no HTTP path is empty: succeeds exactly if no lookup fails and all found paths agree, returning that path with a leading slash |
| ProbePaths.OrderIndependence | app/kubemci/pkg/gcp/healthcheck/healthchecksyncer.go:98-128 | The verdict is the same for all orders unless, and only unless, all lookups work, all non-empty paths agree, and an empty path stands among them |
| ProbePaths.EmptyPathDependsOnOrder | app/kubemci/pkg/gcp/healthcheck/healthchecksyncer.go:98-128 | Two clusters, one with an empty path: one order succeeds, the other fails |
| TargetProxies.Syncer.EnsureHttpProxy | app/kubemci/pkg/gcp/targetproxy/targetproxysyncer.go:116-183 | An existing proxy under force has exactly its URL map replaced; a new one is as wanted; untouched without force |
| TargetProxies.Syncer.EnsureHttpsProxy | app/kubemci/pkg/gcp/targetproxy/targetproxysyncer.go:214-277 | The same, so an existing proxy keeps its certificates |
| TargetProxies.Syncer.DeleteTargetProxies | app/kubemci/pkg/gcp/targetproxy/targetproxysyncer.go:79-112 | Both are deleted, each judged by the rules that refer to it |
| SslCerts.Syncer.EnsureSecretCert | app/kubemci/pkg/gcp/sslcert/sslcertsyncer.go:79-171 | Delete-then-create update: nil leaves a matching certificate, a failure in between can leave none, a strict cloud refuses while it is used |
| SslCerts.Syncer.EnsureSslCert | app/kubemci/pkg/gcp/sslcert/sslcertsyncer.go:56-77 | A pre-shared certificate is only looked up |
| SslCerts.Syncer.DeleteSslCert | app/kubemci/pkg/gcp/sslcert/sslcertsyncer.go:113-127 | Gone on nil, a missing one is no error |
| ForwardingRules.Syncer.Ensure | app/kubemci/pkg/gcp/forwardingrule/forwardingrulesyncer.go:76-104 | Untouched without force; nil leaves the wanted rule, through delete-and-recreate or by setting the proxy in place |
| ForwardingRules.Syncer.Update | app/kubemci/pkg/gcp/forwardingrule/forwardingrulesyncer.go:264-287 | Which of the two ways is taken, and what each can leave when it fails halfway |
| ForwardingRules.Converges | app/kubemci/pkg/gcp/forwardingrule/forwardingrulesyncer.go:264-316 | A successful forced ensure leaves a rule with the wanted proxy, address, ports and description, and exactly the wanted rule unless the load balancing scheme was all that differed besides the proxy |
| ForwardingRules.Syncer.DeleteForwardingRules | app/kubemci/pkg/gcp/forwardingrule/forwardingrulesyncer.go:108-139 | On nil both rules are gone and nothing else changed |
| ForwardingRules.Syncer.GetLoadBalancerStatus | app/kubemci/pkg/gcp/forwardingrule/forwardingrulesyncer.go:143-170 | In a reliable cloud the status of the HTTP rule if there is one, otherwise of the HTTPS rule; NotFound only if both are missing |
| ForwardingRules.Syncer.RemoveClustersFromStatus | app/kubemci/pkg/gcp/forwardingrule/forwardingrulesyncer.go:215-262 | On a cloud that hands out copies no stored rule changes, and nil only says that a rule exists |
| RuleAliasing.Provider.RemoveClustersFromRule | app/kubemci/pkg/gcp/forwardingrule/forwardingrulesyncer.go:242-262 | After a successful get the only other call is the one that sets the proxy; shared objects have then lost the clusters, with copies no stored rule ever changes |
| RuleAliasing.Provider.RemoveClustersFromStatus | app/kubemci/pkg/gcp/forwardingrule/forwardingrulesyncer.go:215-262 | A nil result leaves no removed cluster in a stored status if and only if objects are shared or none was listed before |
| RuleAliasing.Provider.Update | app/kubemci/pkg/gcp/forwardingrule/forwardingrulesyncer.go:264-287 | Rules that compare equal never reach delete and create |
| RuleAliasing.NilResultMeans | app/kubemci/pkg/gcp/forwardingrule/forwardingrulesyncer.go:215-262 | The law behind it, for every stored state |
| FirewallRules.Syncer.EnsureFirewallRule | app/kubemci/pkg/gcp/firewallrule/firewallrulesyncer.go:123-153 | Keeps the network of an existing rule and otherwise takes that of an instance of one of the clusters, forgives only the default priority, untouched without force, nil leaves a rule the match function accepts |
| FirewallRules.WantedUnique | app/kubemci/pkg/gcp/firewallrule/firewallrulesyncer.go:210-246 | The wanted rule does not depend on any order, except for its network |
| FirewallRules.GetTags | app/kubemci/pkg/gcp/firewallrule/firewallrulesyncer.go:289-327 | The first tag of an instance of each cluster's first group, an error exactly if one is missing |
| FirewallRules.WithoutClusters | app/kubemci/pkg/gcp/firewallrule/firewallrulesyncer.go:248-286 | The rule without exactly those tags, sorted, and with every other field kept |
| FirewallRules.WithoutTagsTwice | app/kubemci/pkg/gcp/firewallrule/firewallrulesyncer.go:265-285 | Removing tags twice is removing the union |
| FirewallRules.Syncer.RemoveFromClusters | app/kubemci/pkg/gcp/firewallrule/firewallrulesyncer.go:94-121 | The rule is as before or lost exactly the tags of the clusters; nil means it did |
| FirewallRules.Syncer.DeleteFirewallRules | app/kubemci/pkg/gcp/firewallrule/firewallrulesyncer.go:76-90 | Gone on nil, a missing one is no error |
| Status.RemoveClusters | app/kubemci/pkg/gcp/status/loadbalancerstatus.go:45-67 | The status without exactly those clusters; a text that is no status is returned as it is, and never an error |
| Status.PlainTextIsNoError | app/kubemci/pkg/gcp/status/loadbalancerstatus.go:43-50 | One such text |
| Status.StatusWithoutTwice | app/kubemci/pkg/gcp/status/loadbalancerstatus.go:45-67 | Removing twice is removing the union |
| Sorting.WithoutKeepsOrder | app/kubemci/pkg/gcp/status/loadbalancerstatus.go:51-61 | Exactly the unmarked elements survive, in their order |
| Sorting.SortWithout | app/kubemci/pkg/gcp/firewallrule/firewallrulesyncer.go:271-285 | Filtering a sorted list is sorting the filtered list |
| Sorting.SortForgetsOrder | app/kubemci/pkg/gcp/backendservice/backendservicesyncer.go:294-313 | Sorting removes every trace of an iteration order |
| Sorting.LeqIsLexicographic | app/kubemci/pkg/gcp/backendservice/backendservicesyncer.go:294-313 | The order is lexicographic |
| Listing.ListLoadBalancers | app/kubemci/pkg/gcp/loadbalancer/loadbalancersyncer.go:427-448 | The merged list names exactly the load balancers with a status, and each once if and only if each has one home; in a reliable cloud it fails if and only if there is no forwarding rule at all |
| Listing.EmptyProjectCannotBeListed | app/kubemci/pkg/gcp/forwardingrule/forwardingrulesyncer.go:184-189 | Listing an empty project is an error |
| Listing.ListUrlMapStatuses | app/kubemci/pkg/gcp/urlmap/urlmapsyncer.go:152-174 | The decodable statuses of all URL maps with the prefix |
| Listing.ListRuleStatuses | app/kubemci/pkg/gcp/forwardingrule/forwardingrulesyncer.go:175-211 | The first status of each load balancer on the rules with the prefix; a nil slice, which stands for no rule, is an error |
| Listing.ListingIsExact | app/kubemci/pkg/gcp/loadbalancer/loadbalancersyncer.go:427-448 | The same for every pair of orders in which the two calls may answer |
| Listing.ListingAlwaysExact | app/kubemci/pkg/gcp/loadbalancer/loadbalancersyncer.go:109-448 | After every history of commands on load balancers without a status on a rule, the list names each load balancer with a status exactly once |
| Names.NameCollision | app/kubemci/pkg/gcp/namer/namer.go:60-127 | Two names are equal if and only if role and port are, and the load balancer names are equal or both keys exceed 62 characters and share the first 62 |
| Names.NameIsLabel | app/kubemci/pkg/gcp/namer/namer.go:111-127 | A name has at most 63 characters, and is a lower-case label in the sense of section 2.3.1 of RFC 1035 if and only if the surviving part of the load balancer name is fit for one |
| Names.NameDeterminesRole | app/kubemci/pkg/gcp/namer/namer.go:60-109 | Within one load balancer every role has a name of its own |
| Names.ShortNamesDiffer | app/kubemci/pkg/gcp/namer/namer.go:111-127 | Different load balancer names of at most 33 characters share no resource name |
| Names.DecimalRoundTrip | app/kubemci/pkg/gcp/namer/namer.go:60-67 | A printed port reads back as the port |
| Names.NamesSpelled | app/kubemci/pkg/gcp/namer/namer.go:60-127 | All names spelled out, cut at 62 characters and closed with a zero |
| GroupLinks.GroupLinkRoundTrip | app/kubemci/pkg/gcp/utils/utils.go:25-64 | The printed link of a group parses back to zone and name if and only if the zone URL does not itself contain the separator and the zone is not called instanceGroups |
| GroupLinks.JoinSplit | app/kubemci/pkg/gcp/utils/utils.go:25-64 | Splitting by a separator of several characters loses nothing |
| Validations.NodePortSameInAllClusters | app/kubemci/pkg/validations/validations.go:84-109 | Succeeds exactly if every cluster resolves and all ports agree, provided no port is the sentinel |
| Validations.SentinelLaw | app/kubemci/pkg/validations/validations.go:84-109 | The exact outcome for any order, sentinel ports included |
| Validations.SentinelHidesDisagreement | app/kubemci/pkg/validations/validations.go:84-109 | Two clusters that disagree and pass, because one port is the sentinel |
| Validations.ServicesNodePortsSame | app/kubemci/pkg/validations/validations.go:51-80 | Only the default backend decides; the verdict is the documented one unless, and only unless, the default backend passes and a path fails |
| Validations.PathErrorIsDropped | app/kubemci/pkg/validations/validations.go:51-80 | A failing path that is not reported |
| Validations.VersionRoundTrip | app/kubemci/pkg/validations/validations.go:162-188 | Components below 2 to the 32, printed with any suffix that does not start with a digit, parse back |
| Validations.ReadExactly | app/kubemci/pkg/validations/validations.go:162-188 | A string is read as (a, b, c) if and only if it is a v, three numbers of these values with separators that are no digit or newline, and a rest that does not begin with a digit |
| Validations.DottedExactly | app/kubemci/pkg/validations/validations.go:162-188 | A string that is read is a dotted version if and only if both separators are dots |
| Validations.NotDotted | app/kubemci/pkg/validations/validations.go:162-188 | v1x9y3 is read as 1.9.3 |
| Validations.AcceptanceThreshold | app/kubemci/pkg/validations/validations.go:137-159 | A printed dotted version is accepted exactly if lexicographically at least (1, 8, 1) and not (1, 10, 0) |
| Validations.AcceptedExactly | app/kubemci/pkg/validations/validations.go:137-188 | Any string is accepted if and only if it has the form of a version above that threshold |

## Left out

- Command line, flag parsing, printing, logging and table layout: no deep property.
- Kubernetes and GCP clients, kubectl and gcloud: their answers are inputs or store operations.
- The wait loop of getIGsForCluster (app/kubemci/pkg/gcp/loadbalancer/loadbalancersyncer.go:501-541): it ends when an outside controller writes an annotation; the model takes its result, a non-empty list of groups, or an error.
- Error texts: only nil, NotFound, in-use and other are told apart.
- JSON text and MD5: replaced by any codec and hash with the stated laws.
- Output-only fields other than the fingerprint: nothing compares them.
- Iap on backend services: the match function dereferences it on both sides, and it is assumed absent.
- The difference between a nil and an empty Go slice where reflect.DeepEqual sees it: both are the empty sequence.
- Concurrent runs on one project: commands follow one another.
- Ingress loading and defaulting, the ingress copies in the clusters, and the details of service and probe lookup: their results are inputs.
- The parameter `validate` of CreateLoadBalancer: the method does not use it.
- GetZoneAndNameFromInstanceURL: the same parser with another separator; only the group link has a printer to round-trip with.
