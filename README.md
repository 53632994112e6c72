# ModuloX coordination layer, modelled in Dafny

ModuloX is a Go framework for running groups of language-model agents.
This project models its coordination layer: the bookkeeping that sits
between the network, the goroutines and the model calls. It has these
parts:

- **Reliability guards**: a three-state circuit breaker, a retry loop with
  capped exponential backoff, and a token-bucket rate limiter.
- **Messaging substrate**: a versioned key/value store, a topic message
  bus whose per-subscriber buffers hold 100 messages, and an event-handler
  table. Also the agent server's RPC handlers that compose them.
- **Cluster manager**: nodes with a capacity and a load counter, a
  cluster that registers nodes, picks the least-loaded suitable node, and
  marks silent nodes unhealthy on a heartbeat tick.
- **Workflow engine**: a sequential pipeline of agents, a "mixture"
  workflow that fans a task out and is meant to aggregate the results
  (see "## Findings"), and a coordinator that runs workflows by name.
- **Supporting registries**: the tool registry, the naive vector store,
  the health checker, the metrics collector with its cumulative counter,
  the tracer, and the two `BaseAgent` types.

There is one Dafny module per Go file. Shared modules:

- `Wrappers`: Go's `error` as `Outcome`, `(T, error)` as `Result`, and
  `fmt.Errorf("…: %w")` as the `Wrapped` error.
- `Types`: the records of `pkg/types`.
- `Strings`: `%d` rendering of naturals, with its parse-back.
- `Completions`: the "run everything concurrently, then receive the first
  error sent" pattern. `EmitEvent` uses it, and so does the mixture workflow
  up to its final `select`. For `EmitEvent`, receiving nil from the closed
  channel and taking `default` give the same result. In the mixture
  workflow they do not (see "## Findings"). The completion order is chosen
  nondeterministically, and results are proved for every order.

How the model treats effects:

- Objects the source mutates are classes with `modifies` clauses.
- Go map iteration is an arbitrary choice among the remaining keys, so
  every property holds whatever order the runtime uses.
- Time is an explicit `now` argument.
- Agents, handlers, tools, validators, health checks, the LLM provider
  and the memory are function-typed parameters.
- An event publish that the code acts on is an `Outcome` parameter.
  Publishes whose results the code ignores are returned as `Notice`
  values, or left out.

## Model

| member | source | states |
|---|---|---|
| CircuitBreakers.CircuitBreaker.constructor | pkg/reliability/circuit_breaker.go:28-34 | a new breaker is Closed with failure count 0 and keeps the given threshold and timeout; it satisfies the breaker invariant |
| CircuitBreakers.CircuitBreaker.Execute | pkg/reliability/circuit_breaker.go:37-45 | when the breaker refuses, `fn` is not invoked, the result is `ErrCircuitOpen` and the state is unchanged; otherwise `fn`'s outcome is returned verbatim and recorded on the state left by the permission check |
| CircuitBreakers.CircuitBreaker.AllowRequest | pkg/reliability/circuit_breaker.go:48-70 | allowed iff not Open or `now - lastFailure > resetTimeout` (strict); Open and allowed moves to HalfOpen; count and last-failure time are untouched |
| CircuitBreakers.CircuitBreaker.RecordResult | pkg/reliability/circuit_breaker.go:73-90 | a failure adds one to the count, stamps `now`, and opens the breaker if it was HalfOpen or the count reached the threshold; a success in HalfOpen closes with count 0; a success otherwise changes nothing |
| CircuitBreakers.RunKeepsInv | pkg/reliability/circuit_breaker.go:48-90 | every interleaving of permission checks and recorded results keeps the count non-negative, and a Closed breaker at 0 or below the threshold |
| CircuitBreakers.ClosedTripsOnThreshold | pkg/reliability/circuit_breaker.go:73-90 | from Closed, a run of results ends Open iff it held a failure and the earlier count plus its failures reach the threshold, even with successes in between; it never ends HalfOpen |
| CircuitBreakers.OpenStaysOpen | pkg/reliability/circuit_breaker.go:73-90 | with no permission check, recorded results keep an Open breaker Open and its count grows by the number of failures |
| CircuitBreakers.TrialAfterTimeout | pkg/reliability/circuit_breaker.go:52-89 | an Open breaker admits a trial iff the timeout has strictly elapsed, keeps its count when it does, closes with count 0 on a successful trial, and reopens on a failed trial |
| Retries.DefaultRetryConfig | pkg/reliability/retry.go:19-26 | three attempts, 100 ms initial delay, factor 2, 10 s cap, and every error retryable |
| Retries.Listed | pkg/reliability/retry.go:66-71 | the allow-list loop finds the error iff it is in the list |
| Retries.IsRetryable | pkg/reliability/retry.go:62-72 | true iff the allow-list is empty or contains the error |
| Retries.Retry | pkg/reliability/retry.go:29-59 | the loop agrees with the recursive specification in result, call count and waits; with `MaxAttempts <= 0` nothing is called and the result is nil; otherwise 1 to `MaxAttempts` calls; every call before the last was a retryable failure with an uncancelled wait; the k-th wait is `DelayAt(k)` |
| Retries.SkipRetriedAttempts | pkg/reliability/retry.go:33-56 | after k retryable failures with uncancelled waits, the run continues as if it started at attempt k |
| Retries.AlwaysFailingExhaustsAttempts | pkg/reliability/retry.go:33-58 | when every call fails retryably and no wait is cancelled, `fn` is called exactly `MaxAttempts` times and the last error is returned |
| Retries.FirstStopEndsRun | pkg/reliability/retry.go:34-49 | the first success returns nil at once; a non-retryable error is returned after exactly that call; a cancelled wait returns the context error; no further calls follow |
| Retries.DefaultConfigTriesThreeTimes | pkg/reliability/retry.go:19-58 | under the default configuration a function that always fails is called three times, waiting 100 ms and then 200 ms |
| Retries.DelayIsCappedExponential | pkg/reliability/retry.go:51-54 | the k-th wait is `min(InitialDelay * BackoffFactor^k, MaxDelay)`: capping at every step equals capping once; so every wait after the first is at most `MaxDelay` |
| RateLimiters.Min | pkg/reliability/rate_limiter.go:62-67 | the result is one of the two arguments and no larger than either |
| RateLimiters.Refill | pkg/reliability/rate_limiter.go:33-35 | the refilled count is `tokens + elapsed*rate`, capped at the bucket size |
| RateLimiters.AllowStaysInBounds | pkg/reliability/rate_limiter.go:33-42 | with a non-negative rate and a clock that does not go back, `Allow` keeps `0 <= tokens <= bucketSize` |
| RateLimiters.BurstThenRefill | pkg/reliability/rate_limiter.go:29-43 | a full bucket of 5 at 5 tokens/s admits 5 calls at one instant, refuses a sixth, and admits one again 0.2 s later |
| RateLimiters.RateLimiter.constructor | pkg/reliability/rate_limiter.go:19-26 | a new limiter has a full bucket, refilled as of `now` |
| RateLimiters.RateLimiter.Allow | pkg/reliability/rate_limiter.go:29-43 | refills to `min(bucketSize, tokens + elapsed*rate)` and sets `lastRefill = now`; allowed iff the refilled count is at least 1, in which case exactly one token is taken; otherwise the refilled count stays; the bounds invariant is kept |
| RateLimiters.AllowAllSnoc | pkg/reliability/rate_limiter.go:29-43 | one more `Allow` call at the end of a run adds its decision to the run's count and leaves the bucket that call leaves |
| RateLimiters.RateLimiter.AllowCounted | pkg/reliability/rate_limiter.go:29-43 | an `Allow` call extends a counted run of calls by one, keeping count and bucket equal to the run's |
| RateLimiters.RateLimiter.WaitN | pkg/reliability/rate_limiter.go:46-60 | every poll that was not cancelled made one `Allow` call, and the count granted and the final bucket are those of that run of calls; succeeds iff `n <= 0` or n calls succeeded, stopping at the call that took the n-th token; a done context returns its error at the first poll that sees it, and no earlier poll was done; the bounds invariant is kept for a clock that does not go back |
| StateStores.VersionCountsWrites | pkg/communication/state.go:30-45 | after any history of `Set` calls, a key is present iff written; its version is the number of writes to it, and its value is the last one written |
| StateStores.PutLeavesOtherKeys | pkg/communication/state.go:40-44 | a write to one key leaves the presence and entry of every other key unchanged |
| StateStores.StateStore.constructor | pkg/communication/state.go:23-27 | a new store is empty, with an empty write history |
| StateStores.StateStore.Set | pkg/communication/state.go:30-45 | stores the value at `now` with version 1 for a new key, or the previous version + 1; every other key is unchanged; the version equals the number of writes to that key |
| StateStores.StateStore.Get | pkg/communication/state.go:48-54 | found iff the key is present; the stored entry when found, the zero entry otherwise |
| StateStores.StateStore.WatchTick | pkg/communication/state.go:77-80 | emits the entry iff the key exists with a version above the last one seen, and then records that version; otherwise the last version is kept |
| StateStores.WatchPollsIncreasing | pkg/communication/state.go:72-81 | the entries a run of ticks emits have strictly increasing versions, all above the starting version |
| StateStores.WatchAsWrittenRepeatsInitial | pkg/communication/state.go:61-70 | as written, an existing unchanged entry is sent twice: once at once and again at the first tick |
| StateStores.WatchIncreasing | pkg/communication/state.go:57-86 | when the ticks start from the version already sent, the whole stream has strictly increasing versions |
| MessageBuses.DeliverKeepsBound | pkg/communication/message.go:50-57 | a send never pushes a buffer past 100 messages, keeps the messages already queued, and queues the message at the end exactly when the buffer had room |
| MessageBuses.MessageBus.constructor | pkg/communication/message.go:27-31 | a new bus has no topics |
| MessageBuses.MessageBus.Subscribe | pkg/communication/message.go:34-41 | appends one empty buffer to the topic's list and returns its position; other topics are unchanged |
| MessageBuses.MessageBus.Publish | pkg/communication/message.go:44-60 | an unknown topic returns nil and changes nothing; other topics are never modified; each visited buffer of the topic gets the message if it has room, and a full one is left as it was; the result is nil unless a done context stopped the loop, in which case the context error is returned and later buffers are untouched |
| Completions.FirstFailureMeaning | pkg/communication/event.go:60-66 | the first error received is nil iff every outcome passes; otherwise it is one of the outcomes, preceded only by passes |
| Completions.FirstFailureInAnyOrder | pkg/communication/event.go:39-67 | for every completion order, the first error received is nil iff every run passed, and otherwise is the error of one of the runs |
| Completions.Gather | pkg/communication/event.go:44-66 | each run completes exactly once in some order; the result is the first failure in that order; it is nil iff all runs passed |
| EventSystems.EventSystem.constructor | pkg/communication/event.go:25-29 | a new event system has no handlers |
| EventSystems.EventSystem.RegisterHandler | pkg/communication/event.go:32-36 | appends the handler to the end of its type's list and keeps the earlier handlers |
| EventSystems.EventSystem.EmitEvent | pkg/communication/event.go:39-67 | only the event type's handlers run, each once; the result is nil iff each of them succeeded, including when there are none; otherwise it is one of their errors |
| Servers.PublishThenStream | pkg/communication/server.go:56-79 | an event published and then streamed keeps its type, payload, source and metadata; only the timestamp is lost |
| Servers.ExecutedText | pkg/communication/server.go:114-118 | the text is "Executed task for agent ", then the agent id, then ": " at the position right after it, then the task |
| Servers.ExecutedTextDetermines | pkg/communication/server.go:114-118 | for agent ids without a colon, two equal texts come from the same agent id and the same task |
| Servers.AgentServer.constructor | pkg/communication/server.go:23-29 | a fresh, empty bus, event system and state store |
| Servers.AgentServer.Execute | pkg/communication/server.go:32-43 | always succeeds, echoes the request metadata, and returns the `executeTask` text |
| Servers.AgentServer.PublishEvent | pkg/communication/server.go:71-87 | publishes the event's message on the topic named by its source agent; `Success=true` exactly when the bus publish reached every subscriber (always for an unknown topic or when no subscriber's context is done), and then the error text is empty; otherwise `Success=false` with the context error's text and no RPC error; subscribers before the stop received the message, those after are untouched, and the other topics are unchanged |
| Servers.AgentServer.SyncState | pkg/communication/server.go:90-98 | always `Success=true`; stores the value and answers with version 1 on the first sync or previous + 1, which is the number of syncs of that key |
| Nodes.StatusCode | pkg/distributed/node.go:37-42 | the integer of a status, in declaration order, with Healthy as 1 |
| Nodes.StatusCodeRoundTrip | pkg/distributed/node.go:37-42 | a status's integer reads back as that status, and an integer reads back as a status only when it is that status's integer, so distinct statuses get distinct integers |
| Nodes.OverloadedIsRatioAboveEightTenths | pkg/distributed/node.go:149 | for a positive capacity, `10*load > 8*capacity` iff `load/capacity > 0.8` |
| Nodes.Node.constructor | pkg/distributed/node.go:45-59 | a new node has capacity 100, load 0, status Healthy, no agents, and last ping `now` |
| Nodes.Node.RegisterAgent | pkg/distributed/node.go:62-81 | at capacity it fails with no state change and no event; otherwise the agent is mapped under its name, load goes up by one, the announcement is issued, and the publish result is returned; `load <= capacity` is kept |
| Nodes.RegisterTwice | pkg/distributed/node.go:70-72 | registering the same name twice raises the load by two but adds one map entry: the load counts registrations, not distinct agents |
| Nodes.Node.ExecuteTask | pkg/distributed/node.go:84-125 | an unknown agent fails with no agent run and no event; a failed start publish aborts before the agent runs; an agent error is returned wrapped, with an error event; success returns the agent's output unchanged, with a completion event |
| Nodes.Node.GetStatus | pkg/distributed/node.go:128-141 | reports the id, address, load, capacity, status code, last ping, and the number of agents; the reported code reads back as the node's status |
| Nodes.Node.UpdateStatus | pkg/distributed/node.go:144-154 | sets the last ping to `now`, and the status to Overloaded iff `load/capacity > 0.8`, else Healthy; agents and load are unchanged |
| Clusters.FactorLeIsRatioLe | pkg/distributed/cluster.go:131-132 | for positive capacities the cross-multiplied comparison is the comparison of the exact load factors |
| Clusters.FactorLtLe | pkg/distributed/cluster.go:132-134 | if factor 1 is below factor 2 and factor 2 is at most factor 3, then factor 1 is at most factor 3; so replacing the running minimum keeps it at most every candidate already seen |
| Clusters.NodeMatchesRequirements | pkg/distributed/cluster.go:142-166 | true iff the agent id is empty or hosted on the node, and every required tag is among the node's tags |
| Clusters.MarkIfSilent | pkg/distributed/cluster.go:176-177 | marks the node Unhealthy iff it has been silent longer than the timeout; otherwise the status stays; no other field changes |
| Clusters.Cluster.constructor | pkg/distributed/cluster.go:29-45 | a new cluster has no nodes |
| Clusters.Cluster.RegisterNode | pkg/distributed/cluster.go:48-65 | a taken id fails and leaves the map unchanged; a fresh id inserts the node even if the announcement fails, and the publish result is returned |
| Clusters.Cluster.GetNode | pkg/distributed/cluster.go:68-78 | succeeds iff the id is registered, with that node; otherwise "node not found" |
| Clusters.Cluster.GetHealthyNodes | pkg/distributed/cluster.go:81-93 | every Healthy node exactly once, and no other node |
| Clusters.Cluster.NewLowest | pkg/distributed/cluster.go:131-135 | a node whose factor is strictly below the running minimum is no higher than any candidate seen so far, so replacing the best node keeps it minimal |
| Clusters.Cluster.FindSuitableNode | pkg/distributed/cluster.go:113-139 | none iff no Healthy matching node has a load factor below 1; otherwise a Healthy matching node with factor below 1 whose factor is no greater than any other Healthy matching node's |
| Clusters.Cluster.ScheduleTask | pkg/distributed/cluster.go:96-110 | when no node is found, fails without running anything; otherwise runs on the chosen best node; success returns the agent's output; every node error is wrapped once more, so an agent's own failure arrives wrapped twice; the notices are the chosen node's task_start event and its task_complete or task_error event |
| Clusters.Cluster.MarkOne | pkg/distributed/cluster.go:175-181 | one iteration of the heartbeat loop changes only the status of the node under that id |
| Clusters.Cluster.HeartbeatTick | pkg/distributed/cluster.go:173-184 | marks Unhealthy exactly the nodes with `now - lastPing > NodeTimeout`, never sets Healthy, leaves every other status and all loads, pings and agents unchanged, and returns the marked ids, each once, in visit order, with one `node_unhealthy` notice per id in the same order |
| Workflows.Join | pkg/workflow/workflow.go:189-198 | newline-separated with no trailing separator; the empty list gives "" and one part gives that part |
| Workflows.JoinSnoc | pkg/workflow/workflow.go:191-195 | appending a part appends one newline and the part |
| Workflows.SplitJoin | pkg/workflow/workflow.go:189-198 | splitting the joined text at newlines gives back lines that held no newline: nothing is lost or merged |
| Workflows.ChainAppend | pkg/workflow/workflow.go:41-56 | running two agent lists in turn is running their concatenation |
| Workflows.ChainErrorSource | pkg/workflow/workflow.go:42-49 | a pipeline error is the context's error, or one agent's error, unwrapped |
| Workflows.PipelineOfTwo | pkg/workflow/workflow.go:37-59 | with a live context, two agents compute the second applied to the first's output |
| Workflows.SequentialWorkflow.constructor | pkg/workflow/workflow.go:29-34 | a new sequential workflow has no agents |
| Workflows.SequentialWorkflow.AddAgent | pkg/workflow/workflow.go:62-65 | appends the agent and never fails |
| Workflows.SequentialWorkflow.Execute | pkg/workflow/workflow.go:37-59 | returns `an(…a1(task))`, or "" for no agents; a step error is returned unwrapped and stops the run; a context seen done before a step returns its error without running that step |
| Workflows.AggregateInputCarriesResults | pkg/workflow/workflow.go:141-165 | in the intended workflow, where the aggregator runs once all members succeed, the results slice holds their outputs, and lines without newlines can be read back from the aggregator's task |
| Workflows.MixtureWorkflow.constructor | pkg/workflow/workflow.go:75-81 | a new mixture workflow has no members and the given aggregator |
| Workflows.MixtureWorkflow.AddAgent | pkg/workflow/workflow.go:183-186 | appends the agent and never fails |
| Workflows.MixtureWorkflow.ExecuteAsWritten | pkg/workflow/workflow.go:84-157 | as written: client and start-event failures are returned wrapped before any member runs; otherwise the first failure in completion order is returned, and when no member failed the result is "" and the aggregator is never run |
| Workflows.MixtureAsWrittenDiffers | pkg/workflow/workflow.go:146-179 | for every completion order, the written and the intended results agree iff some member failed or the aggregation result is ""; with all members passing, the written result is "" |
| Workflows.MixtureAsWrittenDropsSummary | pkg/workflow/workflow.go:146-157 | two succeeding members and an aggregator answering "summary": the written code returns "", the intended code "summary" |
| Workflows.MixtureWorkflow.Execute | pkg/workflow/workflow.go:84-180 | as intended: client and start-event failures are returned wrapped before any member runs; the aggregator runs iff every member succeeded; otherwise the error is the first failure in completion order, which is one member's report; the aggregator's task is the header plus the joined results; its error is returned wrapped and its output otherwise |
| Coordinators.Coordinator.constructor | pkg/workflow/coordinator.go:20-30 | a new coordinator has no workflows |
| Coordinators.Coordinator.RegisterWorkflow | pkg/workflow/coordinator.go:33-42 | maps the name to the workflow, replacing any earlier one |
| Coordinators.Coordinator.ExecuteWorkflow | pkg/workflow/coordinator.go:45-84 | the workflow runs iff the name is registered and the start event was published; an unknown name fails; a publish failure fails before the run; a workflow error is returned wrapped, and success unchanged |
| Coordinators.RegisterThenExecute | pkg/workflow/coordinator.go:33-84 | executing a name just registered runs the workflow just registered, whatever was there before |
| ToolRegistries.ToolRegistry.constructor | pkg/tools/registry.go:19-24 | a new registry has no tools and no validators |
| ToolRegistries.ToolRegistry.RegisterTool | pkg/tools/registry.go:27-41 | a taken name fails and leaves tools and validators unchanged; otherwise the tool is stored, and the validator only if given; validators stay a subset of the tools |
| ToolRegistries.ToolRegistry.ExecuteTool | pkg/tools/registry.go:44-61 | the tool runs iff it is registered and its validator, if any, passes; an unknown name fails; a validator error is returned wrapped; otherwise the result is exactly the tool's result |
| ToolRegistries.ToolRegistry.DiscoverCapabilities | pkg/tools/registry.go:64-77 | one capability per registered tool, named by its key and carrying its description, with no name repeated |
| VectorStores.Nearest | pkg/memory/store.go:40-43 | the first `min(k, n)` stored vectors |
| VectorStores.NearestStable | pkg/memory/store.go:31-43 | later stores do not change what a query within the earlier contents returns |
| VectorStores.BaseStore.constructor | pkg/memory/store.go:24-28 | a new store is empty |
| VectorStores.BaseStore.Store | pkg/memory/store.go:31-34 | appends the vectors in order after the existing ones, and never fails |
| VectorStores.BaseStore.Query | pkg/memory/store.go:38-44 | for `k >= 0`, returns the first `min(k, n)` stored vectors, ignoring the query vector and leaving the store unchanged |
| VectorStores.QueryFresh | pkg/memory/store.go:24-43 | a new store answers every query with nothing |
| Health.AllHealthyAfterRun | pkg/observability/health.go:43-75 | after a run, the checker is healthy iff every fresh result is healthy and every status left from an earlier run is healthy too |
| Health.HealthChecker.constructor | pkg/observability/health.go:28-33 | no checks and no statuses |
| Health.HealthChecker.RegisterCheck | pkg/observability/health.go:36-40 | maps the name to the check, replacing any earlier one; statuses unchanged |
| Health.HealthChecker.RunChecks | pkg/observability/health.go:43-52 | each registered name's status becomes its check's result; other statuses are kept; the whole map is returned |
| Health.HealthChecker.GetStatus | pkg/observability/health.go:55-61 | found iff a status is recorded for the name; the zero status otherwise |
| Health.HealthChecker.IsHealthy | pkg/observability/health.go:64-75 | true iff every recorded status is "healthy", so also before any run |
| Metrics.RunningTotals | pkg/observability/metrics.go:85-89 | one recorded value per increment |
| Metrics.RunningTotalsAreSums | pkg/observability/metrics.go:85-89 | the k-th recorded counter value is the start plus the first k+1 increments: counter metrics are cumulative |
| Metrics.MetricsCollector.constructor | pkg/observability/metrics.go:34-38 | no metrics |
| Metrics.MetricsCollector.RecordMetric | pkg/observability/metrics.go:41-47 | appends exactly one entry, stamped with `now`, under its name; other names unchanged |
| Metrics.MetricsCollector.GetMetrics | pkg/observability/metrics.go:50-55 | that name's entries in recording order, or none |
| Metrics.MetricsCollector.NewCounter | pkg/observability/metrics.go:67-73 | a fresh zero counter with the name and labels, reporting to this collector |
| Metrics.Counter.Add | pkg/observability/metrics.go:81-93 | raises the value by v and records one Counter-typed metric carrying the new total; the value is the sum of everything added |
| Metrics.Counter.Inc | pkg/observability/metrics.go:76-78 | the effect of `Add(1)` |
| Metrics.AddEach | pkg/observability/metrics.go:81-93 | a run of additions raises the value by their sum and records, after the earlier metrics, one metric per addition carrying the running total |
| Tracing.Span.constructor | pkg/observability/tracing.go:61-68 | a new span has the given ids, name and start, no parent, Status OK, no tags and no events |
| Tracing.Effect | pkg/observability/tracing.go:126-142 | a parent lends its trace id and becomes the parent, and a nil parent does nothing; tags are added, replacing equal keys, and nothing else changes |
| Tracing.ParentThenTags | pkg/observability/tracing.go:71-73 | options apply in order: a tag option after a parent option keeps the parent's trace and parent id and adds the tags |
| Tracing.SpanIdsDistinct | pkg/observability/tracing.go:151-153 | span ids generated at different clock readings differ |
| Tracing.Tracer.constructor | pkg/observability/tracing.go:52-57 | no spans, and the given sampler |
| Tracing.Tracer.StartSpan | pkg/observability/tracing.go:60-85 | options are applied in order before the sampler sees the trace id; an unsampled span returns nil and the unchanged context, and is not stored; a sampled span is fresh, stored under its span id, and attached to the context |
| Tracing.ApplyOption | pkg/observability/tracing.go:126-142 | one option changes the span as `Effect` says, and nothing else |
| Tracing.Tracer.EndSpan | pkg/observability/tracing.go:88-94 | stamps the end time and changes no other field; nothing for a nil span |
| Tracing.Tracer.AddEvent | pkg/observability/tracing.go:97-110 | appends one event and changes no other field; nothing for a nil span |
| Tracing.Tracer.SetError | pkg/observability/tracing.go:113-120 | sets StatusError and the "error" tag to the error's text, other tags and fields unchanged; nothing for a nil span |
| Agents.BaseAgent.constructor | pkg/agent/agent.go:28-33 | no tools and no capabilities |
| Agents.BaseAgent.AddTool | pkg/agent/agent.go:36-43 | appends the tool, and a capability named "tool" with its description; never fails; keeps tools and capabilities in one-to-one correspondence |
| Agents.BaseAgent.GetCapabilities | pkg/agent/agent.go:46-48 | one capability per tool, in insertion order |
| LlmAgents.BuildContextAppend | pkg/agent/base_agent.go:93-103 | the context of two runs of vectors is their contexts one after the other |
| LlmAgents.NonTextAddsNothing | pkg/agent/base_agent.go:95-101 | a vector lacking a string "input" or "output" contributes nothing to the context, wherever it stands |
| LlmAgents.InteractionRoundTrip | pkg/agent/base_agent.go:70-101 | a stored interaction comes back in a later context as "Q: input\nA: output\n\n" |
| LlmAgents.BaseAgent.constructor | pkg/agent/base_agent.go:35-44 | keeps the configuration and the registry |
| LlmAgents.BaseAgent.Execute | pkg/agent/base_agent.go:47-80 | an embed failure returns wrapped before memory is queried; a query failure (k = 5) returns wrapped before completion; the prompt is "Context:\n" + context + "\n\nInput: " + input; a completion failure returns wrapped; on success the interaction is stored and the completion is returned even if storing fails |
| LlmAgents.BaseAgent.AddTool | pkg/agent/base_agent.go:83-85 | registers the tool under its description with no validator; a taken description fails with the registry unchanged |
| LlmAgents.BaseAgent.GetCapabilities | pkg/agent/base_agent.go:88-90 | the registry's capabilities, one per tool |

## Left out

- Goroutines, `sync.WaitGroup` and locks: every operation is atomic.
  - Parallel runs (`EmitEvent`, the mixture members) are given as outcomes, completed in an arbitrary order.
  - The races the source leaves open are not modelled. These are the lock upgrade in `AllowRequest`, the cluster reading node fields without the node's lock, and `StreamEvents` closing a channel the bus owns.
- Tickers and sleeps: the `monitorHeartbeats` loop (one tick is modelled), the `Watch` goroutine (its initial send and its version test are modelled), `HealthChecker.StartMonitoring`, the sleep in `WaitN`, and `Retry`'s `time.After`. Time enters only as explicit arguments.
- The gRPC layer: the agent client, `AgentServer.Start`, the `StreamEvents` loop (its event conversion is modelled), and the creation of agent clients in `NewNode`, `NewCluster`, `NewCoordinator` and the mixture workflow (only the latter's failure is modelled, since it is returned).
- Publishes whose results are ignored: the coordinator's registration event, the `workflow_execution_error` and `workflow_execution_complete` events of `ExecuteWorkflow`, and the mixture workflow's per-member and aggregation events.
- Configuration files, the command-line entry point, logging, plugin loading, the reflection-based safe executor, and the provider interface are not part of this model.
- `Close` methods of the cluster, node and coordinator: they only close network clients.
- Floating point:
  - Rate-limiter tokens and metric values are exact reals.
  - Load factors are compared by integer cross-multiplication.
  - There is no IEEE rounding, NaN or infinity.
- Retries.IsRetryable: errors are compared as values. Go's `==` on errors made by `errors.New` or `fmt.Errorf` compares pointers, so two such errors with the same text are distinct there but equal here. The model matches Go only for value-typed errors such as `ReliabilityError` or when the same sentinel is listed and returned. The same holds for `Retries.Listed`.
- Retries.Retry: the backoff factor is a natural-number multiplier. The source's conversion through `float64` and truncation back to a duration is not modelled.
- MessageBuses.MessageBus.Publish: channels are value buffers held inside the bus. A subscriber's reads are not modelled, so a buffer only fills.
- VectorStores.BaseStore.Query: a negative `k` makes the source's slice expression panic. It is excluded by a precondition instead of being modelled as a crash.
- Health.HealthChecker.RunChecks: the `Details` map of a status is not modelled.
- RateLimiters.RateLimiter.WaitN: the polls it may make are a finite parameter, so a third result, `StillWaiting`, reports a loop that had not finished when they ran out.
- Tracing.Tracer.StartSpan: trace and span ids are built from clock readings passed in, so uniqueness holds only when the readings differ (`Tracing.SpanIdsDistinct`).
- Coordinators.Coordinator.ExecuteWorkflow: what a workflow computes is a parameter; each workflow kind's behaviour is modelled in the workflows module.

## Findings

| source | as written | input that shows it | evidently intended | confidence | as-written member | corrected member |
|---|---|---|---|---|---|---|
| pkg/communication/state.go:61-70 | `Watch` sends the current entry at once, but its polling goroutine starts from `lastVersion = -1`, so the first tick sends the same entry again | a key holding an entry of version 1 that is not written again: the stream is that entry twice | each version is sent once, so the polling starts from the version already sent | not executed | StateStores.WatchAsWrittenRepeatsInitial | StateStores.WatchIncreasing |
| pkg/workflow/workflow.go:146-157 | the error channel is closed before the `select`, and a receive on a closed channel is always ready, so the `default` arm is never taken: with no member error the workflow publishes `workflow_error` and returns ("", nil), and the aggregation at lines 159-179 is unreachable | two members that both succeed, with an aggregator answering "summary": the result is "" instead of "summary" (zero members behave the same) | when no member failed, the aggregator runs on the joined results and its output is returned | not executed | Workflows.MixtureAsWrittenDropsSummary | Workflows.MixtureWorkflow.Execute |
