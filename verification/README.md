# Worker-topology controller and worker: verified model

The controller reads a template — roles with replica counts and linear load formulas, and directed edges
between them — resolves how much input every role sees, writes one configuration per role, hands every
client pod a server port, and keeps the input signal moving along a scenario timeline. The worker turns a
configuration into CPU, memory and network load and corrects that load from measurements. This project
models the decisions both programs make, as Dafny methods, classes and functions, and proves what those
decisions add up to.

| modules | subject |
|---|---|
| `RoleModel`, `Propagation`, `Kahn` | resolved x: the equations, their laws, and the queue algorithm that solves them |
| `Order`, `Ports`, `PeerResolution` | sorting, first-fit port offsets, and the loops that expand edges into addresses, offsets and server counts |
| `Materialise`, `Worker`, `EndToEnd` | the two-phase write, the light x update, the worker's port pool, and the claims that span all of them |
| `Json`, `DotKeys`, `Dicts` | deep merge and dotted patches: the algebra on values, and the in-place code on dictionaries in the heap |
| `Topology`, `Embedding`, `TopologyMeaning`, `LostInputs` | topology documents, their translation into templates, why it preserves meaning, and two documents on which an input is lost |
| `Scenario`, `Runner`, `Following`, `ScenarioRun` | timeline validation, the tick-driven runner over a cluster, exactly when every role follows the timeline, and what that means for the apps of a document |
| `CpuLoad`, `Feedback`, `CpuLoop`, `Recycler`, `Sampler` | the worker's load state, the two correction steps, the CPU loop on the commands it really runs, the server recycler and the rolling window |
| `Fit` | least squares |
| `LinkPlan`, `Netem`, `Traffic` | link declarations, per-node shaping plans, measured traffic by role and by pod |
| `Prelude` | finite sums, pigeonhole facts, optional values |

## How it is modelled

Floats are reals. Names, ids and addresses are `Name` values. Code that updates variables, dicts or
objects is a method or a class, proved against a specification function or predicate; the laws are then
lemmas about that specification. What Kubernetes, the clock, the process table and the scrapers return is
a parameter.

Three things are worth knowing before reading the proofs.

- Everything about x rests on one induction principle, `Propagation.StuckMeansCycle`: a set of roles each of
  which has an upstream inside the set lies below a cycle. It gives cycle detection, uniqueness, locality
  and monotonicity.
- Port offsets are a function of the list of clients (`Ports.Offsets`). The methods that maintain
  `used_by_target` are proved equal to it, and all guarantees are lemmas about it.
- The dictionary code is proved on the heap. `Dicts.Shape` is the tree a dictionary is the root of; each
  method takes the shape of its arguments as ghost parameters and returns the shape of its result, and says
  which dictionaries are new. What a patch means is then a question about values.

## What the code does where one might expect otherwise

- The docstring of `patch_system_x` (controller/materialiser.py:1377-1393) promises that the runner retries
  when a role's ConfigMap cannot be patched. The code logs and carries on without raising, so the runner
  counts the phase as applied and makes no further call in it (`Runner.MissedIsNotRetried`; a two-tick run
  in `Following.MissedForGood`). What each role then has is the configuration of the last call that reached it
  (`Runner.RoleHoldsWhatLastReachedIt`). A call is made again exactly when it raised
  (`Runner.RetriedExactlyWhenRaised`).
- Which runs keep every role on the timeline is settled by `Following.RunnerFollowsTimeline`, an equivalence:
  given which roles a call may miss, and whether one that raises may already have patched some, all runs
  follow the timeline if and only if phases sharing an effective id have equal inputs (as have the phases
  between them, if calls may raise halfway) and every role that may be missed runs at one x throughout.
  Validation checks neither.
- Two apps that share a role can swallow an input that validation accepted. An entry of a phase's map takes
  effect if and only if nothing but its own role feeds its role and the last entry for that role carries the
  same value (`TopologyMeaning.EntryLandsExactlyWhen`). `LostInputs` has a document for either half.
- The merge is MergePatch of RFC 7396, section 2, if and only if no object in the patch has a null member: the code
  stores nulls, the standard deletes (`Json.MergeAgreesWithStandard`). Two patches may be combined ahead of
  time if and only if the second never puts an object where the first has something else
  (`Json.AssociativityCondition`).
- The memory loop comes to rest if and only if the baseline is at most half a megabyte above the target
  (`Feedback.RamRestsExactlyWhen`); otherwise it asks for an empty buffer again at every step.
- The CPU loop need not settle. With a deadband smaller than what rounding to whole percents can miss it may swing
  between two commands for ever (`CpuLoop.SwingsFromIdle`, from a fresh start). It settles from every state when twice
  the deadband less gain times the deadband is at least ten millicores per worker needed (`CpuLoop.CpuSettles`); at
  full gain on up to 66 cores that floor is exact (`CpuLoop.FullGainSettlesExactlyWhen`). The default knobs satisfy it
  on every machine and at every target (`CpuLoop.DefaultKnobsSettle`).
- Shaping classes collide with the default class from 9990 peers on (`Netem.DefaultClassIsClear`), and the handle of a
  delay no longer fits the sixteen bits tc has for it from the 991st peer on (`Netem.HandlesFitExactlyWhen`).
- A bandwidth below one byte per second is accepted and becomes a rate of zero (`LinkPlan.AcceptedRates`).
- ARCHITECTURE.md:494-499 describes port offsets as a counter per target role; the code, followed here, takes the first
  offset free on every target. The two agree if and only if, whenever a pod's turn comes, all its targets have equally
  many clients already (`Ports.CountingExactlyWhen`).

## Model

| member | source | states |
|---|---|---|
| Kahn.ResolveX | controller/materialiser.py:359-429 | succeeds exactly on acyclic role graphs and then returns the unique solution of the x equations; on failure names exactly the roles on or below a cycle; every role is queued once and after all its upstreams, every distinct edge is relaxed once, the loop runs once per role |
| Kahn.BuildAdjacency | controller/materialiser.py:385-393 | both adjacency tables hold exactly the distinct edges that are not self-edges |
| Kahn.Seed | controller/materialiser.py:402-406 | the queue starts with exactly the roles without upstreams, each resolved to its source input |
| Kahn.Relax | controller/materialiser.py:417-422 | the inner loop keeps the books: `remaining` counts the upstreams not yet popped, `accum` sums what the popped ones sent, a role is queued when its last upstream reports |
| Kahn.QueuedIsAcyclic | controller/materialiser.py:424-428 | nothing that entered the queue lies on or below a cycle |
| Kahn.UnresolvedIsBelowCycle | controller/materialiser.py:424-428 | everything left over lies on or below a cycle |
| Propagation.StuckMeansCycle | controller/materialiser.py:398-428 | roles that all wait for one another contain a cycle above each of them |
| Propagation.SolutionExists | controller/materialiser.py:359-429 | an acyclic template has a resolved x |
| Propagation.AtMostOneSolution | controller/materialiser.py:359-429 | the resolved x is unique and depends on neither the order nor the repetition of edges, nor on self-edges |
| Propagation.SameWiringSameCycles | controller/materialiser.py:385-428 | rejection depends only on the set of distinct edges without self-edges |
| Propagation.ChangesStayDownstream | controller/materialiser.py:339-429 | changing an input, a count or net coefficients changes x only at that source and at strict descendants of the changed roles |
| Propagation.Monotone | controller/materialiser.py:339-429 | with non-negative slopes, larger inputs and counts never lower any x |
| Propagation.PerRoleInput | controller/materialiser.py:339-356 | under a per-role signal a role without upstreams resolves to its own entry and an unlisted one to 0; listing that 0 changes no role's x |
| Propagation.UniformInput | controller/materialiser.py:339-356 | under one number every role without upstreams resolves to it, and nothing differs from the per-role signal that gives every role that number |
| Propagation.UpstreamsAddUp | controller/materialiser.py:408-422 | any other role resolves to the sum, over its distinct upstreams, of count times the net formula cut off at zero, at the upstream's x |
| Propagation.EdgeListingIsIrrelevant | controller/materialiser.py:385-393 | reordering, repeating or dropping repeated edges and adding or dropping self-edges changes neither rejection nor any x |
| Order.SortForgetsOrder | controller/materialiser.py:285-287 | sorting pods by distinct names yields one list whatever order the listing had |
| PeerResolution.ComputePeers | controller/materialiser.py:169-191 | every role's targets in order of first declaration |
| PeerResolution.PeerRolesAreTargets | controller/materialiser.py:169-191 | the targets are exactly the ends of the role's edges, each once, self-edges included |
| PeerResolution.PeerRolesGrow | controller/materialiser.py:169-191 | and they are in the order of their first edges |
| PeerResolution.CollectAddresses | controller/materialiser.py:288-299 | the addresses of all targets' pods, each once in order of first appearance, and the role each is reported under |
| PeerResolution.AddressesGrow | controller/materialiser.py:288-294 | addresses are listed target by target |
| PeerResolution.PeersAreReportedAsThemselves | controller/materialiser.py:295-299 | when no address is listed for two targets, each is reported under the one that lists it |
| PeerResolution.ClientsAreNamedPods | controller/materialiser.py:305-310 | the clients that get offsets are exactly the named pods |
| PeerResolution.FirstFree | controller/materialiser.py:311-313 | the search stops, at the least offset no target has in use |
| PeerResolution.ColourRole | controller/materialiser.py:309-316 | colouring one role's named pods extends the first-fit assignment client by client |
| PeerResolution.Colour | controller/materialiser.py:301-316 | the maintained sets and tables are those of first fit over all named source pods in name order |
| PeerResolution.MaxPlusOne | controller/materialiser.py:318-321 | one more than the largest offset in use, zero when none is |
| PeerResolution.CountServers | controller/materialiser.py:318-321 | every role's server count covers exactly the offsets used on it |
| PeerResolution.ResolvePeerIps | controller/materialiser.py:236-323 | all four results for every role, equal to their specifications |
| Ports.SharersDiffer | controller/materialiser.py:301-316 | two pods that share a target never hold the same offset |
| Ports.OffsetBounded | controller/materialiser.py:309-316 | every smaller offset is held by an earlier pod sharing a target, so an offset is at most the number of such pods |
| Ports.EnoughServers | controller/materialiser.py:318-321 | a target's server count is at least the number of named pods connecting to it |
| Ports.CountingExactlyWhen | controller/materialiser.py:301-316 | every pod's offset is the number of earlier pods on each of its targets if and only if those numbers agree for every pod |
| Ports.ExactServers | controller/materialiser.py:318-321 | then a target's server count is exactly the number of pods connecting to it; one target per pod is a special case |
| Ports.SingleTargetsBalance | controller/materialiser.py:301-316 | with one target per pod the numbers always agree |
| Materialise.ComputeFanin | controller/materialiser.py:326-336 | the sum of the source counts over the edges into a role, a repeated edge counted again |
| Materialise.FaninAddsUp | controller/materialiser.py:326-336 | without repeated edges that is the number of pods of all the roles with an edge to it |
| Materialise.NoInboundNoServers | controller/materialiser.py:326-336 | a role without inbound edges has fan-in 0 and is never given a server count |
| Materialise.Cluster.Materialise | controller/materialiser.py:528-632 | a cyclic template changes nothing and names the roles at fault; otherwise every role ends with its final configuration and the template is stored |
| Materialise.Cluster.WritePhaseOne | controller/materialiser.py:566-593 | phase 1 writes every role without peers and with its fan-in as server count |
| Materialise.Cluster.WritePhaseTwo | controller/materialiser.py:599-632 | phase 2 rewrites the roles with peer addresses or a different server count and leaves the rest as phase 1 wrote them |
| Materialise.Cluster.PatchSystemX | controller/materialiser.py:1395-1423 | only x changes, and only in the roles whose ConfigMap could be read and patched before a call raised, if one did; a cycle or a missing template changes nothing |
| Materialise.ConfigIgnoresSignal | controller/materialiser.py:432-465 | nothing in a configuration but x depends on the signal |
| Materialise.ConfigFields | controller/materialiser.py:599-632 | a role's configuration field by field: its own formulas, its peers' addresses, and the server count found by the colouring, or its fan-in when the colouring found none and it has no peers, and never 0 |
| Materialise.ConfigsCarryTheTemplate | controller/materialiser.py:432-465 | after materialising and any run of x updates every stored configuration has its role's own cpu, ram and net formulas, and the x the role resolves to at the signal that last reached it |
| Materialise.LightEqualsHeavy | controller/materialiser.py:1395-1423 | after any run of patches, with any roles unreachable at each, every role has the configuration that materialising at the last signal that reached it would write |
| Worker.Worker.Configure | worker/worker.py:56-131 | a reconfigured worker opens exactly the configured ports and runs exactly the configured clients (none without a bound base port), works towards the configured formulas at the configured x, and has its stress load seeded at the full cpu target |
| Worker.Worker.StartNetwork | worker/loads.py:448-523 | the pool is `server_count` consecutive ports from the base port; one client per peer, all on the pod's own port |
| Worker.PortsOpened | worker/loads.py:473-490 | a pod with a server count opens that many ports, one without opens the default pool if it sends and none if it does not |
| Worker.ClientPorts | worker/worker.py:96-104 | every client uses its pod's offset, or the base port if the pod was given none |
| Worker.EgressIsConserved | worker/loads.py:509-514 | the clients of a pod together carry exactly its configured egress |
| EndToEnd.NoPortClash | controller/materialiser.py:603-623 | across the whole template, two different pods never have a client on the same port of the same address, whatever x each role currently runs at |
| EndToEnd.EveryClientIsServed | controller/materialiser.py:567-623 | the port every client connects to is open on the pod behind the address, which is a pod of a target role, whatever x either role runs at |
| EndToEnd.PortsStaySafe | controller/materialiser.py:1395-1423 | both hold in every state the cluster goes through: after materialising and any run of x updates, whichever roles each reached |
| EndToEnd.TargetServesOffset | controller/materialiser.py:603-623 | the server count a target ends with exceeds every offset given out for it, also when its own rewrite was skipped, and the worker opens exactly that many ports |
| EndToEnd.ClientsReachEveryTarget | controller/materialiser.py:288-299 | a pod with something to send has a client for exactly the addresses of its target roles |
| EndToEnd.OneClientPerAddress | controller/materialiser.py:293-295 | a pod has at most one client per address |
| EndToEnd.PodsRunTheTemplate | controller/materialiser.py:432-465 | in every state after any run of updates, the cpu, memory and network a pod works towards are its role's formulas at the role's resolved x |
| EndToEnd.RoleEgressIsCarried | controller/materialiser.py:411-416 | what propagation says a role sends is what the clients of its replicas carry together |
| EndToEnd.PeersAreNamed | controller/materialiser.py:295-299 | with distinct addresses every peer in a stored configuration is reported under the target role it belongs to |
| EndToEnd.ForkClientsMeet | controller/materialiser.py:603-623 | a concrete deployment meets every hypothesis of `NoPortClash` and `EveryClientIsServed`: two pods reach the same address, on different ports |
| EndToEnd.RelistingKeepsOffsets | controller/materialiser.py:277-308 | offsets and server counts do not depend on the order in which pods are listed, nor on addresses without a name |
| EndToEnd.RedeclaringKeepsOffsets | controller/materialiser.py:306-307 | nor on the order in which the template declares its roles |
| Json.MergeAgreesWithStandard | controller/materialiser.py:646-661 | the merge is RFC 7396's on every base if and only if the patch has no null object member |
| Json.MergeIdempotent | controller/materialiser.py:646-661 | merging the same patch again changes nothing |
| Json.AssociativityCondition | controller/materialiser.py:646-661 | patches may be grouped either way for every base if and only if the second never puts an object over something else in the first |
| Dicts.DeepMerge | controller/materialiser.py:646-661 | on heap dictionaries: the content is the merge, the root is new, and no existing dictionary is changed although the result shares some |
| Dicts.Assign | controller/materialiser.py:680-692 | the cursor loop, changing dictionaries in place, leaves a tree whose content is the recursive assignment; nothing outside the tree is changed, and only new dictionaries or the value's are added |
| Dicts.ExpandDotKeys | controller/materialiser.py:664-693 | expansion builds a tree of new dictionaries whose content is the assignments in order |
| Dicts.PatchTemplate | controller/materialiser.py:713-729 | the merged template is a new dictionary with the specified content, `name` from the URL, and the stored template is untouched |
| Dicts.DetourIsAbsorbed | controller/materialiser.py:683-687 | an empty dictionary created on the way to a leaf does not change what the walk ends with |
| Dicts.GraftedTree | controller/materialiser.py:679-692 | replacing what lies at a path by something apart from the rest keeps the dictionaries a tree: no aliasing appears |
| DotKeys.SplitIsExact | controller/materialiser.py:681 | a key splits into the one list of dot-free parts that joins back to it, empty parts included |
| DotKeys.PlainMembersStay | controller/materialiser.py:664-693 | keys without dots stay as they are, each with its own expanded value, and what is not an object is unchanged |
| DotKeys.PutIsMerge | controller/materialiser.py:679-692 | the walk to a leaf is a deep merge with the nested singleton |
| DotKeys.FoldIsMerge | controller/materialiser.py:717-724 | merging a whole patch is merging its assignments one by one when no path is a prefix of another |
| DotKeys.NestsCommute | controller/materialiser.py:646-661 | assignments at incomparable paths commute on every base |
| DotKeys.FoldPermutes | controller/materialiser.py:664-693 | the order of such assignments is irrelevant |
| DotKeys.PatchEqualsItsAssignments | controller/materialiser.py:717-724 | one dotted request equals its assignments sent in separate requests in any order |
| DotKeys.PatchIsIdempotent | controller/materialiser.py:717-724 | sending a request twice is sending it once |
| Topology.Sanitize | controller/materialiser.py:854-857 | the result is always a resource name (not empty, only lower-case letters, digits and dashes, no dash at either end), and a resource name is kept as it is |
| Topology.SanitizeJoins | controller/materialiser.py:854-857 | whatever separates two names becomes a single dash |
| Topology.SanitizeIgnoresCase | controller/materialiser.py:854-857 | a name spelt with capitals gives the same result as its lower-case spelling |
| Topology.SanitizeFallsBack | controller/materialiser.py:854-857 | a name with nothing usable in it becomes the stock name |
| Topology.ComputeRoleByApp | controller/materialiser.py:1094-1110 | which role each app runs as, for every document |
| Topology.CollectLoads | controller/materialiser.py:1153-1163 | the load of each role |
| Topology.TranslateEdges | controller/materialiser.py:1256-1263 | app edges become role edges, those with an end that deploys nothing are dropped |
| Topology.RekeySignal | controller/materialiser.py:1123-1137 | per-app inputs become per-role inputs |
| Topology.TranslateTopology | controller/materialiser.py:1197-1271 | the loops build the translation the laws below are about |
| TopologyMeaning.DeployedExactlyWhen | controller/materialiser.py:1094-1120 | an app runs as a role exactly when it has an id and refers to a deployment with an id and a name; it is a source app exactly when also no app edge points at it |
| TopologyMeaning.RoleCarriesItsApp | controller/materialiser.py:1197-1240 | an app's role is named after its deployment, has the deployment's replicas as count and the app's own cpu, ram and net formulas, or all zeros when the app declares no load |
| TopologyMeaning.BaselineInput | controller/materialiser.py:1187-1194 | without phases the template starts at the document's own x |
| TopologyMeaning.TranslationPreservesX | controller/materialiser.py:1197-1271 | when apps and roles correspond one to one, the template is cyclic exactly when the app graph is, and every app's x from the template is what propagation directly on the app graph gives |
| TopologyMeaning.TranslationPreservesPhase | controller/materialiser.py:1123-1137 | the same at the signal of any later phase |
| TopologyMeaning.SourceRoleCondition | controller/materialiser.py:1113-1120 | exactly when an app's role is a source for the pass |
| TopologyMeaning.EntryLandsExactlyWhen | controller/materialiser.py:1123-1137 | an entry of a phase map takes effect if and only if only its own role feeds its role and the last entry for that role carries the same value |
| TopologyMeaning.LandedInputIsUsed | controller/materialiser.py:406-409 | a role on which an entry lands resolves to exactly that value |
| TopologyMeaning.PhaseInputLands | controller/materialiser.py:1058-1137 | when apps and roles correspond one to one, no entry of a validated phase map is ignored: it lands, and its role resolves to its value |
| LostInputs.FedRoleLosesInput | controller/materialiser.py:1058-1137 | an accepted map gives app a 1.0, but another app of its role is fed: the entry does not land and the role resolves to 0 |
| LostInputs.TwinsLoseInput | controller/materialiser.py:1123-1137 | an accepted map gives two apps of one role 1.0 and 2.0: the first does not land and the role resolves to 2.0 |
| Embedding.PropagationRenamed | controller/materialiser.py:359-429 | resolved x is invariant under renaming roles along an embedding |
| Embedding.CyclesCorrespond | controller/materialiser.py:424-428 | so is rejection |
| Scenario.ValidateScenarios | controller/materialiser.py:1001-1055 | accepts exactly the contiguous timelines starting at 0, and otherwise names the first phase at fault |
| Scenario.ValidatePhaseX | controller/materialiser.py:1058-1077 | accepts exactly numbers and non-empty maps from source apps to numbers |
| Scenario.AcceptedExactlyWhen | controller/materialiser.py:1024-1055 | the accepted timelines field by field: objects without load axes, numeric windows that start at 0 and join up, inputs that are numbers or non-empty tables of numbers for source apps |
| Scenario.ValidTimelineIsContiguous | controller/materialiser.py:1166-1184 | an accepted document yields a contiguous typed timeline keyed on source apps only |
| Scenario.ScenarioXTimeline | controller/materialiser.py:1166-1184 | the timeline handed to the runner: every phase's id, window, and signal rekeyed to roles |
| Scenario.PhasesKeepTheirNames | controller/runner.py:72 | a phase goes by its declared id; two without one share an id exactly when their starts print alike |
| Scenario.PhasesKeepTheirInputs | controller/materialiser.py:1166-1184 | a phase keeps its window and its x: the number, or each listed app's number at the app's role when no other listed app runs as that role |
| Scenario.TimelineIsContiguous | controller/materialiser.py:1166-1184 | it is contiguous for every accepted document |
| Scenario.WindowsPartition | controller/materialiser.py:1024-1055 | the phases partition [0, end): inside exactly one covers any time, outside none |
| ScenarioRun.AppsFollowTheScenario | controller/materialiser.py:1166-1271 | for an accepted, materialised document whose timeline is run: after every tick inside the timeline that did not raise, every app's role runs at what propagation over the app graph gives that app under the active phase, in any weather the timeline forgives |
| ScenarioRun.NamedScenariosAreFollowed | controller/runner.py:56-82 | an accepted document whose phases all have ids of their own, or none and starts that print differently, is followed with no condition on ids or signals, as long as calls that return reach every role |
| ScenarioRun.AppsStartAtTheFirstPhase | controller/materialiser.py:1187-1194 | before any tick every app runs as the first phase says |
| Runner.ScenarioRunner.ActivePhase | controller/runner.py:50-54 | the scan returns the first phase whose window holds the elapsed time |
| Runner.ScenarioRunner.OnTick | controller/runner.py:56-82 | one tick: update the cluster when the phase changed, remember the phase only if the call did not raise, keep what a raising call had patched |
| Runner.ScenarioRunner.RunAll | controller/runner.py:56-82 | a run of ticks is the fold of one tick |
| Runner.ActiveIsTheWindow | controller/runner.py:50-54 | on a contiguous timeline the scan finds the one covering window, and finds one exactly inside the timeline |
| Runner.AppliedOnceInOrder | controller/runner.py:56-82 | under a clock that never goes back the calls go forward through the timeline and past a phase once it was applied |
| Runner.RoleHoldsWhatLastReachedIt | controller/runner.py:56-82 | after any run every role has the configuration that materialising at the signal of the last call that reached it would write |
| Runner.MissedIsNotRetried | controller/runner.py:69-80 | once a call returned, later ticks in its phase change nothing: a role it missed keeps its old configuration |
| Runner.RetriedExactlyWhenRaised | controller/runner.py:69-82 | the next tick of a phase calls again exactly when the call before it raised |
| Following.RunnerFollowsTimeline | controller/runner.py:56-82 | all runs keep every role on the active phase's configuration after every tick inside the timeline that did not raise, if and only if the timeline forgives what the cluster may do |
| Following.RunnerFollowsInClearWeather | controller/runner.py:69-80 | when calls reach all roles or nothing, that is: if and only if phases under one effective id have equal inputs |
| Following.MissingAnyRoleIsTooMuch | controller/materialiser.py:1402-1423 | if a role whose x moves may be missed without an exception, some run leaves it behind |
| Following.MissedForGood | controller/materialiser.py:1402-1423 | a two-tick run in which a missed role is not retried and stays at the old x |
| Following.LostAnswerIsKept | controller/runner.py:76-82 | a call that raises after patching, in a phase between two of one id, is never put right |
| Following.SameInputsSameX | controller/materialiser.py:359-429 | two signals give every role the same x if and only if they give the source roles the same inputs |
| Runner.HoldsAfterEnd | controller/runner.py:56-82 | nothing changes after the end |
| CpuLoad.CpuLoad.StartCpu | worker/loads.py:165-185 | respawns exactly when the quantised command differs from the remembered one |
| CpuLoad.CpuLoad.StopCpu | worker/loads.py:146-162 | kills the stress process and clears the request, but not the remembered command |
| CpuLoad.CpuLoad.StopCurrent | worker/loads.py:561-588 | back to the idle state |
| CpuLoad.CpuLoad.Replay | worker/loads.py:146-185 | any sequence of calls on the object leaves the state the histories below speak of |
| CpuLoad.HistoryConsistent | worker/loads.py:146-185 | after every history of calls the remembered command is unset or that of the remembered request, which is never negative |
| CpuLoad.SkippingIsUnobservable | worker/loads.py:165-185 | after every history at most one stress process runs, and it is the one a machine that always respawns would run |
| CpuLoad.QuantisationError | worker/loads.py:116-143 | in range the command uses the fewest workers and generates within five millicores per worker of the request |
| CpuLoad.ClampedRequests | worker/loads.py:116-143 | what happens outside that range |
| CpuLoad.SliceExactlyWhen | worker/loads.py:137-142 | the duty-cycle slice is passed exactly when one is set and the workers are below full load |
| CpuLoad.SkippedNudgeIsSmall | worker/metrics.py:202-214 | a correction skipped by quantisation means an error of at most ten millicores per worker over the gain |
| Feedback.AdjustCpu | worker/metrics.py:182-218 | one step either leaves the load alone or requests the stated level, in terms of the old state |
| Feedback.IdleIsLeftAlone | worker/metrics.py:168-171 | neither loop touches a stopped worker or one without a target |
| Feedback.QuietStepMeansSmallError | worker/metrics.py:182-218 | in any state that calls can leave, a step that changes nothing means an error within the tolerance or within ten millicores per worker over the gain, or a load off and over target, or a request outside the range of the bound |
| Feedback.GapShrinks | worker/metrics.py:202-214 | an unclamped step shrinks the error by exactly one minus the gain |
| Feedback.GapKeepsSign | worker/metrics.py:202-214 | no step overshoots, clamped or not |
| Feedback.ExactLoadSettles | worker/metrics.py:202-214 | on a load that generates exactly what is requested, the loop rests after finitely many steps, within the deadband or with the load off and the baseline above target |
| CpuLoop.StepUp | worker/metrics.py:202-214 | on the commands really run, a step up does not pass the far side of the deadband and raises the request by at least gain times tolerance |
| CpuLoop.StepDown | worker/metrics.py:202-214 | the same downwards |
| CpuLoop.CpuSettles | worker/metrics.py:182-218 | on the commands really run, the loop rests after finitely many steps from every state that calls can leave, when the deadband covers the rounding of the workers needed |
| CpuLoop.RestIsClose | worker/metrics.py:182-218 | where it rests the error is small in the sense of `QuietStepMeansSmallError` |
| CpuLoop.DefaultKnobsSettle | worker/state.py:86-89 | with the default knobs a reconfigured worker settles on any machine, at any target, under any baseline |
| CpuLoop.FullGainSettlesExactlyWhen | worker/state.py:82-89 | at full gain on up to 66 cores, with a target of at least 990 millicores per core, every baseline and state settles if and only if the deadband is at least ten millicores per core |
| CpuLoop.SmallDeadbandCycles | worker/state.py:82-85 | below that floor a pod with room for 990 millicores per core swings for ever |
| CpuLoop.SwingsFromIdle | worker/metrics.py:202-214 | a one-core pod that swings between one and two percent for ever from a fresh start |
| Feedback.RamLoad.StartRam | worker/loads.py:192-212 | maps and touches whole pages covering the request, nothing below one page |
| Feedback.BufferIsWholePages | worker/loads.py:192-212 | the buffer is the least whole number of pages covering the whole bytes asked for, and none below one page |
| Feedback.RamLoad.AdjustRam | worker/metrics.py:157-179 | one step, in terms of the old buffer |
| Feedback.RamSettlesInOneStep | worker/metrics.py:157-179 | from a baseline at or below target, one correction lands within a page of it and none follows |
| Feedback.RamRestsExactlyWhen | worker/metrics.py:157-179 | one step suffices if and only if the baseline is at most the deadband above target |
| Recycler.ServerRecycler.OnTick | worker/loads.py:398-430 | one pass over the pool, port by port, with the two tables always on the same keys |
| Recycler.ServerRecycler.Inspect | worker/loads.py:405-426 | one server's branch, leaving every other port's memory alone |
| Recycler.ServerRecycler.Forget | worker/loads.py:427-430 | ports that left the pool are forgotten, the rest kept |
| Recycler.Watch | worker/loads.py:390-432 | over any run of ticks the recycled ports are those the tick history determines, and the respawned ones those found pooled and dead |
| Recycler.RecycledExactlyWhen | worker/loads.py:413-426 | a port is recycled exactly when it is alive and idle and has been so, since a tick that saw it connected, until first reaching the grace |
| Recycler.RespawnedExactlyWhen | worker/loads.py:405-412 | over all histories a port is brought back at exactly the ticks that find it pooled with its process dead, and its memory starts afresh |
| Recycler.HealthyServersAreLeftAlone | worker/loads.py:390-396 | a connected server is never recycled, and between two recycles of a port some tick saw it connected |
| Sampler.Window.Push | worker/metrics.py:284-293 | the pruned deque is always the window of the full history |
| Sampler.Window.Rate | worker/metrics.py:284-296 | there is a rate exactly when the window of the history spans a positive time; it accounts for everything counted over the window, is non-negative for a monotone counter, and respects every bound that all intervals of the window respect |
| Sampler.Window.Publish | worker/metrics.py:293-298 | the gauge is that rate, or what was published before when the window spans no time |
| Sampler.WindowMembers | worker/metrics.py:284-293 | a sample is in the window exactly when it is recent enough or one of the last two |
| Sampler.RateIsWithinBounds | worker/metrics.py:284-297 | the quotient over any window has these properties, repeated timestamps included |
| Sampler.RateIsBetweenIntervals | worker/metrics.py:284-297 | with a clock that advances, it lies between the rates of two of the window's intervals |
| Fit.FitIsBest | provision/calibrate_llm.py:244-262 | in every branch the result minimises the squared error over all lines |
| Fit.FitIsUniqueBest | provision/calibrate_llm.py:244-262 | with two distinct x it is the only minimiser |
| Fit.DenominatorZero | provision/calibrate_llm.py:250-254 | the guard fires exactly when all x are equal |
| Fit.RSquaredBounds | provision/calibrate_llm.py:257-262 | R squared lies in [0, 1] |
| Fit.RSquaredIsTheShareExplained | provision/calibrate_llm.py:257-262 | with two distinct x, one minus R squared times the error around the mean is the fitted line's error; R squared is 1 when all y are equal too, and 0 without points or with one x |
| Fit.FitRecoversLine | provision/calibrate_llm.py:244-262 | points on a line with two distinct x give back that line with R squared 1 |
| LinkPlan.ValidatePairs | controller/linkspec.py:114-143 | accepts a declaration exactly when every pair is well formed and given once in either orientation, and returns its table |
| LinkPlan.ValidateRow | controller/linkspec.py:162-192 | the inner loop extends an acceptable table or shows the whole declaration unacceptable |
| LinkPlan.AcceptedInFull | controller/linkspec.py:114-143 | an accepted declaration link by link: named tiers and peers, no tier its own peer, parsing values, no two links between the same two tiers |
| LinkPlan.LinksAreRowPeers | controller/linkspec.py:125-129 | the links are exactly the peers of the rows |
| LinkPlan.Durations | controller/linkspec.py:101-111 | whole microseconds are taken as they are from 2 up to ten seconds, and a thousand of one unit are one of the next |
| LinkPlan.Rates | controller/linkspec.py:146-159 | eight thousand kilobits a second are a million bytes, a thousand of one unit are one of the next, and exactly the positive rates are accepted |
| LinkPlan.OrientationIsIrrelevant | controller/linkspec.py:114-143 | two declarations that differ in orientation and order only are accepted together and have the same table |
| LinkPlan.AcceptedRates | controller/linkspec.py:146-159 | an accepted rate is positive exactly from one byte per second on; a smaller one is accepted and printed as zero |
| LinkPlan.ToTc | controller/netem.py:73-80 | the printed rate is the same number of bits per second |
| Netem.PlanFor | controller/netem.py:129-147 | one entry for each node at the far end of each configured pair, addresses distinct |
| Netem.PlanAll | controller/netem.py:129-147 | shaping happens exactly when both declarations are acceptable, and then every tier gets its plan for the validated tables |
| Netem.FlippingKeepsPlans | controller/netem.py:129-147 | such declarations are planned together, with the same peers and shaping on every tier |
| Netem.ListedExactlyWhen | controller/netem.py:129-147 | a node lists another exactly when their tiers differ and are a configured pair, with that pair's delay and rate |
| Netem.ShapingIsSymmetric | controller/netem.py:129-147 | two nodes list each other or neither does, each once, with the same delay and rate |
| Netem.ShapeScript | controller/netem.py:96-117 | the commands emitted are the numbered classes, delays and filters of the plan |
| Netem.FiltersAreSeparate | controller/netem.py:96-117 | two filters share a class exactly when they are for the same address |
| Netem.HandlesAreSeparate | controller/netem.py:113-115 | read in hexadecimal, every delay has a handle of its own, and none is the root's |
| Netem.HandlesFitExactlyWhen | controller/netem.py:113-115 | the handles fit sixteen bits if and only if no delayed peer comes after the first 990 |
| Netem.ClassBelongsToPeer | controller/netem.py:96-117 | what is configured on a peer's class is exactly that peer's shaping |
| Netem.PeerIsShaped | controller/netem.py:107-117 | a peer's class is capped at exactly eight bits per byte of its rate when it has one and unshaped exactly when it has none, its delay is the pair's, and its filter is for its address |
| Netem.DefaultClassIsClear | controller/netem.py:96-117 | no class collides with the default one if and only if there are at most 9989 peers |
| Traffic.MeasureRoleEdges | controller/graph.py:159-182 | one record per distinct declared pair, in declaration order, measured from the source role's pods |
| Traffic.RoleEdgesAreDistinct | controller/graph.py:159-182 | each declared pair with both ends appears exactly once |
| Traffic.RoleTotals | controller/graph.py:206-222 | in and out totals per role |
| Traffic.TrafficIsConserved | controller/graph.py:206-222 | summed over the roles, out-totals and in-totals both equal the sum of the edge weights |
| Traffic.PodGraph | controller/graph.py:266-288 | pod edges and their totals, flows to unknown addresses dropped |
| Traffic.RoleEdgeIsItsPodEdges | controller/graph.py:159-182 | a role edge weighs exactly the pod-to-pod traffic from its source role's pods to its target role's |

## Assumptions

The lemmas in `EndToEnd` assume what their `requires` say and what the snapshot type implies: one listing of
endpoints serves all lookups, all source pods are listed with names, no address and no pod name is listed twice
(addresses without a name may be many), all patches succeed, and every server a worker starts binds.
`Traffic.RoleEdgeIsItsPodEdges` assumes that no address is recorded twice and that the names of the two roles' pods are
not also names of another role's pods; the pod graph goes by name, so it would merge them. `WellFormed` stands for the checks of
`validate_template` that the graph code relies on. `TranslationPreservesX` assumes positive replica counts
(which validation enforces), distinct role names after sanitising, and a one-to-one correspondence of apps
and roles (which it does not enforce).

## Left out

- Kubernetes, Prometheus, HTTP, subprocess and provisioning plumbing: what they return is a parameter.
- Text: JSON, YAML, tc commands, Grafana payloads, regular expressions; values are modelled before printing and after parsing.
- Structural checks of `validate_template` and `validate_topology`: they appear as `WellFormed` and as hypotheses.
- Latency, bandwidth, tier and node placement in `translate_topology`: they do not touch roles, edges or x.
- Endpoint waiting, partial failures of `materialise`, threads and locks: each call or tick is one step.
- Clocks that go back: the results on the order of a runner's calls assume they do not.
- worker/watcher.py: its debounce rests on timer semantics.
- Floating-point rounding: reals are used, except where rounding to percent, bytes and pages is the point.
- Feedback.ExactLoadSettles: is about a load that generates exactly what is requested; `CpuLoop.CpuSettles` is about the commands really run.
- CpuLoop.CpuSettles: each step measures the load of the current command, as the correction interval is chosen to allow; a rolling window that still holds older samples, or a baseline that moves, is not modelled.
- Sampler.Window.Rate: is the CPU gauge's rate, before its unit; the network gauge's `max` with 0 and with a tiny elapsed time and its unit conversion are not modelled, nor are round-trip probes.
- Topology.Sanitize: covers ASCII; Unicode case folding is not modelled.
- Dicts.ExpandDotKeys: reads the patch as a value, members in order; only the dictionaries it builds are on the heap.
- Dicts.DeepMerge: takes two trees that share no dictionary, which is what every call in the program passes; merging a dictionary into itself is not covered.
- DotKeys.PatchEqualsItsAssignments: compares merged templates; validation of the intermediate templates is not part of it.
- Scenario.ScenarioXTimeline: is modelled for accepted documents, the only ones it is called on.
- Recycler.ServerRecycler.OnTick: a respawned server's process is not followed until the next tick reports it.
