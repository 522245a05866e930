# docker-alertd alert engine, in Dafny

docker-alertd watches a fixed set of Docker containers and raises alerts. It checks that each container exists, is in its expected running state, stays under a CPU and a memory limit, and runs at least a minimum number of processes. It sends every cycle's alerts to the configured channels: email, Slack, Pushover and Pushbullet. This project models the alert engine of its `cmd` package:

- the configuration and how it is validated;
- the five checks of a container, with their shared delay gate and their failure/recovery switch;
- the alert list and how it is rendered;
- the monitor loop, which builds the containers, checks all of them once per cycle, gathers their alerts and hands each non-empty batch to the alerters.

The model has two layers.

- **Values.** Modules `Debounce`, `Checks`, `Alerters`, `Strings`, `Errors` and the functions of `Types` say what each operation computes, as functions of the state.
- **Objects.** The daemon updates its objects in place and shares them by pointer. An `AlertdContainer` points at its `AlertList` and at five check objects, and the copies made by `for _, c := range cnt` share them. So `Container.MetricCheck`, `Container.StaticCheck`, `Container.AlertdContainer`, `Types.AlertList` and `Root.Conf` are classes.

Each method of a class is proved to change exactly the objects it names, in exactly the way the value layer says. The properties the daemon promises are proved as lemmas about the value layer. Examples: debouncing under a sustained breach, a recovery only after a failure, one communication alert per cycle while Docker cannot be reached, and validation that reports every problem.

The outside world is an input:

- Docker's answer for each container and cycle is an `Observation`: the inspection outcome and the statistics outcome.
- The time of each check is an integer number of seconds, `now`.
- Template execution is a `Renderer` function from a template name and its data to a text.
- Sending is recorded in an `Outbox` as a `Dispatch` of the batch and the active alerters.

The fleet-level methods (`CheckContainers`, `Round`, `Repeat`, `Monitor`) take a ghost parameter `turn` and require `IsCycle(turn)`. So `turn` is always the single-container cycle `Checks.Cycle`. It is passed as a value so that proofs about the fleet do not unfold the details of one container's cycle.

Where the daemon's documented behaviour and its code differ, the model follows the code:
- A configured delay of 0 is not the same as no delay. The first breaching check is still suppressed, and the alert comes one check later (`Debounce.ZeroDelaySuppressesOnce`).
- The existence check does not reset its delay window when the container is found again while its alert is inactive. A container that disappears again is treated as if it had been missing since the first time (`Checks.ExistDelayNotReset`).
- The delay of the existence check does not keep a missing container quiet. While the delay holds the failure back, the turn does not stop, so the statistics are still asked for. A failed request then adds its own "Received an unknown error" alert on every cycle of the window (`Checks.ExistDelayLetsStatsAlertThrough`).
- `Slack.Valid` can never fail. Its only setting is the webhook URL, and an empty URL is the omitted channel, which is accepted before the URL is tested.

## Model

| member | source | states |
|---|---|---|
| Debounce.Gate | cmd/alertd_container.go:390-432 | ShouldDelayMetric/ShouldDelayStatic: without a delay nothing is suppressed and nothing changes; a first breach opens the window at `now` and is suppressed; a continued breach is suppressed exactly while fewer than MinDelay whole seconds have passed; a non-breach closes the window and is never suppressed; the alert flag is never touched |
| Debounce.Step | cmd/alertd_container.go:240-282 | the gate followed by the switch: an edge is raised exactly when the alert flag flips; a breach with the alert inactive raises the failure exactly when the gate does not suppress it; a non-breach with the alert active always raises the recovery; a failure only on a breach with the alert inactive, a recovery only on a non-breach with it active; without a delay the flag equals the breach |
| Debounce.RunKeepsDelay | cmd/alertd_container.go:390-432 | no number of checks changes a check's configured MinDelay |
| Debounce.NoDelayFollowsBreach | cmd/alertd_container.go:240-282 | without a delay, over any sequence of checks, the alert is active exactly when the latest check breached, and an edge is raised exactly when the breach differs from the previous one |
| Debounce.SustainedBreach | cmd/alertd_container.go:390-410 | under a sustained breach the first check opens the window and it is never moved, and the alert is active exactly once some later check is at least MinDelay seconds after the first |
| Debounce.SustainedBreachFiresOnce | cmd/alertd_container.go:240-282 | under a sustained breach with a delay, the failure is raised exactly once, on the first check that reaches the delay, and no recovery is ever raised |
| Debounce.ZeroDelaySuppressesOnce | cmd/alertd_container.go:390-400 | with MinDelay 0 the first breach raises nothing and the second raises the failure |
| Debounce.DelayReset | cmd/alertd_container.go:402-406 | a check without a breach closes the window, so the next breach opens a new one at its own time and is suppressed |
| Checks.IsUnknown | cmd/alertd_container.go:112-117 | true exactly when there is an error whose text contains "No such container:" |
| Checks.HasErrored | cmd/alertd_container.go:121-123 | true exactly when there is an error and it does not contain "No such container:" |
| Checks.HasBecomeKnown | cmd/alertd_container.go:128-130 | when it holds the inspection neither failed nor reported an unknown container |
| Checks.ErrorClasses | cmd/alertd_container.go:112-130 | a successful inspection is in neither class; every error is in exactly one of "unknown container" and "communication error" |
| Checks.MemUsageMB | cmd/alertd_container.go:335-337 | the usage in whole megabytes of 1000000 bytes, rounded down |
| Checks.MemoryThreshold | cmd/alertd_container.go:340-344 | in bytes, the memory check breaches exactly from (limit + 1) * 1000000 bytes on |
| Checks.Evaluate | cmd/alertd_container.go:240-282 | the new check state is Step's; at most one alert is appended, and earlier alerts are kept; one is appended exactly when the flag flips; a failure alert comes from the failure templates and a recovery alert from the recovery templates |
| Checks.CpuSpec | cmd/alertd_container.go:240-282 | without a limit nothing changes; with one, the CPU state becomes Step's for usage above the limit, so the failure or recovery is raised exactly as Step raises it; only the CPU state and the list change; the one alert appended exactly when the flag flips comes from the CPU failure templates when it turned on and from the recovery templates when it turned off |
| Checks.PidSpec | cmd/alertd_container.go:291-332 | without a minimum nothing changes; with one, the PID state becomes Step's for fewer processes than the minimum; only the PID state and the list change; the one alert appended exactly when the flag flips comes from the PID failure or recovery templates accordingly |
| Checks.MemSpec | cmd/alertd_container.go:348-388 | without a limit nothing changes; with one, the memory state becomes Step's for whole megabytes above the limit; only the memory state and the list change; the one alert appended exactly when the flag flips comes from the memory failure or recovery templates accordingly, with the usage in megabytes |
| Checks.RunningSpec | cmd/alertd_container.go:184-221 | with a state expected, the running state becomes Step's for a running state other than the expected one; only the running state and the list change; the one alert appended exactly when the flag flips comes from the running failure or recovery templates accordingly |
| Checks.ExistSpec | cmd/alertd_container.go:133-175 | an unknown container with the alert inactive goes through the gate and the failure path; an unknown container with it active changes nothing; any other error appends one communication alert and touches no state; a successful inspection with the alert active appends a recovery and clears the flag; otherwise nothing changes |
| Checks.ExistDelayNotReset | cmd/alertd_container.go:133-175 | with the alert inactive and a delay window open, a successful inspection leaves the window open, where the gate would have closed it |
| Checks.ExistDelayLetsStatsAlertThrough | cmd/monitor.go:124-135 | while the gate holds back a missing container's failure, with no alert active and the container not expected stopped, a failed statistics request makes the cycle's batch exactly its "Received an unknown error" alert |
| Checks.StaticsSpec | cmd/alertd_container.go:86-91 | the existence check, then the running check only when the container was inspected and a state is expected; the metric states are untouched; at most two alerts are appended |
| Checks.MetricsSpec | cmd/alertd_container.go:68-83 | a statistics error appends one alert and runs no check; otherwise the existence and running states are untouched and at most three alerts are appended |
| Checks.MetricsOrder | cmd/alertd_container.go:68-83 | with all three limits set, the alerts come in the order CPU, PIDs, memory, each computed from that check's own state |
| Checks.EvaluateAppends | cmd/alertd_container.go:240-282 | the shared check body appends exactly the alerts its edge raises |
| Checks.Cycle | cmd/monitor.go:118-140 | one container's batch in one cycle holds at most three alerts: the static checks stop the turn as soon as they raise one, and the metric checks raise at most three |
| Checks.StaticAlertSkipsMetrics | cmd/monitor.go:124-132 | when the static checks raised an alert, the cycle's batch is exactly those alerts and the metric checks keep their state |
| Checks.StopSkipsMetrics | cmd/monitor.go:129-132 | when the static checks stop the turn, the metric states are untouched and the statistics are never read |
| Checks.CommunicationErrorCycle | cmd/monitor.go:118-140 | a communication error makes the container's batch exactly its one communication alert and changes no check state |
| Checks.CommunicationErrorRepeats | cmd/monitor.go:117-141 | while Docker cannot be reached, every cycle produces that same single alert and the states stay as they were |
| Container.MetricCheck.constructor | cmd/monitor.go:75-95 | a metric check starts with its limit and delay, inactive, not delaying, with the delay start at `now` |
| Container.MetricCheck.ToggleAlertActive | cmd/alertd_container.go:22-24 | flips the alert flag and nothing else |
| Container.StaticCheck.constructor | cmd/monitor.go:96-109 | a static check starts with its expectation and delay, inactive, not delaying, with the delay start at `now` |
| Container.StaticCheck.ToggleAlertActive | cmd/alertd_container.go:37-39 | flips the alert flag and nothing else |
| Container.AlertdContainer.constructor | cmd/monitor.go:70-110 | fresh, distinct check objects and list; the configured limits, expected state and templates; existence expected true; every check idle and the list empty |
| Container.AlertdContainer.ShouldDelayMetric | cmd/alertd_container.go:390-410 | the answer and the metric check's new state are exactly Debounce.Gate's |
| Container.AlertdContainer.ShouldDelayStatic | cmd/alertd_container.go:412-432 | the answer and the static check's new state are exactly Debounce.Gate's |
| Container.AlertdContainer.ChecksShouldStop | cmd/alertd_container.go:95-108 | the answer is Checks.Stops of the container's state |
| Container.AlertdContainer.CheckExist | cmd/alertd_container.go:133-175 | changes only the existence check and the list, exactly as Checks.ExistSpec |
| Container.AlertdContainer.CheckRunning | cmd/alertd_container.go:184-221 | changes only the running check and the list, exactly as Checks.RunningSpec |
| Container.AlertdContainer.CheckCPUUsage | cmd/alertd_container.go:240-282 | changes only the CPU check and the list, exactly as Checks.CpuSpec |
| Container.AlertdContainer.CheckMinPids | cmd/alertd_container.go:291-332 | changes only the PID check and the list, exactly as Checks.PidSpec |
| Container.AlertdContainer.CheckMemory | cmd/alertd_container.go:348-388 | changes only the memory check and the list, exactly as Checks.MemSpec |
| Container.AlertdContainer.CheckStatics | cmd/alertd_container.go:86-91 | changes only the static checks and the list, exactly as Checks.StaticsSpec |
| Container.AlertdContainer.CheckMetrics | cmd/alertd_container.go:68-83 | changes only the metric checks and the list, exactly as Checks.MetricsSpec |
| Types.DumpLayout | cmd/types.go:22-34 | Alert.Dump is the title and " - " when there is a title, then the message with newlines as spaces, then " - " and the error when there is one; its length is the sum of those parts |
| Types.DumpSingleLine | cmd/types.go:22-34 | Alert.Dump has no newline when the title and the error text have none, whatever the message holds |
| Types.DumpEmailLayout | cmd/types.go:36-48 | Alert.DumpEmail is the title on its own line, then the message unchanged, then the error on its own line |
| Types.RenderedAppend | cmd/types.go:101-137 | rendering a list distributes over concatenation of lists |
| Types.RenderedAt | cmd/types.go:101-137 | the rendering of a list holds every alert's piece, between the renderings of the alerts before it and after it |
| Types.AppendedDisjoint | cmd/types.go:79-85 | when the receiver is not an argument, Concat appends every argument's alerts in order, and the length grows by their total |
| Types.AppendedSelf | cmd/types.go:79-85 | `a.Concat(a)` doubles the list, because the range is over the slice as it was |
| Types.AppendedOne | cmd/types.go:79-85 | `a.Concat(b)` for another list `b` appends b's alerts |
| Types.SelfMask | cmd/types.go:79-85 | marks exactly the arguments that are the receiver |
| Types.AlertList.constructor | cmd/monitor.go:72-74 | a new list is empty |
| Types.AlertList.ShouldSend | cmd/types.go:57-59 | true exactly when the list is not empty |
| Types.AlertList.Len | cmd/types.go:69-71 | zero exactly when the list is empty |
| Types.AlertList.Add | cmd/types.go:74-76 | the alert is appended at the end; the others are kept and the length grows by one |
| Types.AlertList.Clear | cmd/types.go:96-98 | the list is empty and has nothing to send |
| Types.AlertList.Concat | cmd/types.go:79-85 | the alerts are exactly those Types.Appended gives for the arguments' slices, including an argument that is the receiver |
| Types.AlertList.Dump | cmd/types.go:101-107 | each alert's Dump followed by a blank line, in list order; "" for an empty list |
| Types.AlertList.DumpEmail | cmd/types.go:115-121 | each alert's DumpEmail followed by a blank line, in list order; "" for an empty list |
| Types.AlertList.Message | cmd/types.go:123-129 | each message followed by a space, in list order |
| Types.AlertList.Title | cmd/types.go:131-137 | each title followed by a space, in list order |
| Types.AlertList.Evaluate | cmd/types.go:62-66 | exactly one dispatch of the whole list to the given alerters when the list is not empty, none otherwise |
| Types.Outbox.Send | cmd/types.go:140-151 | the batch and the alerters are recorded once, after earlier dispatches |
| Strings.ReplaceNewlines | cmd/types.go:27 | keeps the length, and leaves no newline |
| Strings.Contains | cmd/alertd_container.go:112-117 | true exactly when the text occurs at some position |
| Strings.Join | cmd/root.go:240 | "" for no parts, the part itself for one, and the first part as a prefix otherwise |
| Strings.Wrap | cmd/root.go:243 | the context, ": ", then the message |
| Errors.Select | cmd/alerters.go:53-92 | the errors collected are exactly the tested errors whose setting is missing, in the order of the tests |
| Errors.Texts | cmd/alerters.go:60-82 | each collected error contributes its text, one per error and in the same order |
| Alerters.Email.Missing | cmd/alerters.go:53-92 | one error per missing email setting, in the order SMTP, To, From, password, port, subject |
| Alerters.Email.MissingEmpty | cmd/alerters.go:53-92 | nothing is missing exactly when every email setting is present |
| Alerters.Email.ValidLaw | cmd/alerters.go:53-92 | Email.Valid fails exactly when the channel is neither omitted nor complete, and then lists every missing setting under "email settings validation fail" |
| Alerters.Slack.Valid | cmd/alerters.go:100-119 | Slack.Valid never fails |
| Alerters.Pushover.Missing | cmd/alerters.go:145-172 | one error per missing Pushover setting, in the order API token, user key, API URL |
| Alerters.Pushover.MissingEmpty | cmd/alerters.go:145-172 | nothing is missing exactly when every Pushover setting is present |
| Alerters.Pushover.ValidLaw | cmd/alerters.go:145-172 | Pushover.Valid fails exactly when the channel is neither omitted nor complete, and then lists every missing setting |
| Alerters.Pushbullet.Missing | cmd/alerters.go:199-222 | one error per missing Pushbullet setting, in the order access token, title |
| Alerters.Pushbullet.MissingEmpty | cmd/alerters.go:199-222 | nothing is missing exactly when every Pushbullet setting is present |
| Alerters.Pushbullet.ValidLaw | cmd/alerters.go:199-222 | Pushbullet.Valid fails exactly when the channel is neither omitted nor complete, and then lists every missing setting |
| Root.ProblemsEmpty | cmd/root.go:202-244 | a configuration passes exactly when it is not all-default, names a container, every channel is omitted or complete, and the templates build |
| Root.NoContainersFails | cmd/root.go:210-212 | without containers validation always fails and names the missing containers |
| Root.ZeroConfigProblems | cmd/root.go:202-244 | an all-default configuration, whose templates fall back to the built-in ones, reports the empty configuration and the missing containers, in that order |
| Root.ComplaintsAccumulate | cmd/root.go:202-244 | validation does not stop at the first complaint: with no container and templates that do not parse, both are reported, in that order |
| Root.Conf.constructor | cmd/root.go:115-125 | the loaded configuration, with no active alerters |
| Root.Conf.ValidateEmailSettings | cmd/root.go:129-141 | returns Email.Valid's error, which is never one for an omitted channel; the email alerter is appended exactly when it is configured and valid |
| Root.Conf.ValidateSlackSettings | cmd/root.go:144-156 | never fails; the Slack alerter is appended exactly when it is configured |
| Root.Conf.ValidatePushoverSettings | cmd/root.go:159-171 | as for email, for Pushover |
| Root.Conf.ValidatePushbulletSettings | cmd/root.go:174-186 | as for email, for Pushbullet |
| Root.Conf.ValidateTemplatesSettings | cmd/root.go:188-199 | the templates become what Build returns, even when it fails, and Build's error is returned |
| Root.Conf.Validate | cmd/root.go:202-244 | no error exactly when there is no complaint; otherwise every complaint in order, joined by ", " under "config validation fail"; the valid channels are appended in the order email, Slack, Pushover, Pushbullet whatever the outcome |
| Monitor.Idle | cmd/monitor.go:75-109 | every check of a new container is inactive and not delaying, all with the entry's delay, and the list is empty |
| Monitor.FleetBound | cmd/monitor.go:117-141 | one cycle over the fleet gathers at most three alerts per container |
| Monitor.FleetCommunicationError | cmd/monitor.go:117-141 | a container whose inspection fails with a communication error keeps its checks' state, its batch is exactly its communication alert, and that alert is in the cycle's global list |
| Monitor.GatheredEmpty | cmd/monitor.go:117-141 | the global list after a cycle is empty exactly when no container raised an alert |
| Monitor.SentBatches | cmd/monitor.go:161-166 | at most one batch is sent per cycle, never an empty one, and always to the configured alerters |
| Monitor.UnreachableSendsEveryCycle | cmd/monitor.go:161-166 | while the first container's inspection fails with a communication error, every cycle sends a batch |
| Monitor.InitCheckers | cmd/monitor.go:66-114 | one valid, freshly allocated container per entry, none sharing an object with another, with the entry's settings, existence expected true, and every check idle at `now` |
| Monitor.CheckContainer | cmd/monitor.go:118-140 | a container's state becomes Checks.Cycle of its state, and its whole list is appended to the global list |
| Monitor.CheckAt | cmd/monitor.go:118-140 | checking container k changes container k by one cycle and leaves every other container as it was |
| Monitor.CheckContainers | cmd/monitor.go:117-141 | the fleet's state becomes Monitor.Fleet of its state, and the global list grows by every container's batch in container order |
| Monitor.Round | cmd/monitor.go:161-166 | after clearing, checking and evaluating, the global list is exactly the cycle's batches, and one dispatch is recorded exactly when it is not empty |
| Monitor.Repeat | cmd/monitor.go:161-166 | over the given cycles, the dispatches recorded are exactly Monitor.Sent, and the global list holds the last cycle's batches |
| Monitor.Monitor | cmd/monitor.go:144-168 | with a positive Iterations, the dispatches are exactly those of the cycles run from the containers InitCheckers builds |

## Left out

- Docker: `GetStats`, `ContainerInspect` (cmd/monitor.go:35-62) and the client are not modelled. Their answers are the `Observation` inputs, one per container and cycle.
- `RealCPUUsage` (cmd/alertd_container.go:224-232) computes a percentage in floating point. The model takes the percentage as a whole number in `Stats`.
- Go's integer widths are not modelled. Limits, counts and `Iterations` are unbounded naturals, since nothing in the core relies on wrap-around.
- Time: `time.Now()` is a parameter `now` in whole seconds. All checks of one cycle use one time, and all checks built by one `InitCheckers` use one time.
- Debounce.Gate: `uint64(time.Now().Sub(since).Seconds())` truncates to whole seconds, and the model takes whole-second times. A negative difference, which a monotonic clock cannot produce, counts as 0.
- Templates: parsing (`TemplateConfig.Build`, cmd/template.go:26 on) is an input, `build`, giving the new configuration and its error. Executing a template is the `Renderer` function. Default templates and error texts come from that input.
- Root.Conf: `Templates: &c.Templates` (cmd/monitor.go:110) shares the configuration's templates by pointer. The model copies the renderer into each container, because nothing changes the templates after validation.
- Errors: the texts of the `Err*` values are defined in a file that is not part of this model. `Errors.Text` stands for them: each is a distinct, non-empty text.
- Alerters: `reflect.DeepEqual` tells a nil slice from an empty one. The model treats an empty `To` list as the omitted email channel in both cases.
- Root.Conf.IsZero: `reflect.DeepEqual(&Conf{}, c)` (cmd/root.go:205) is false for a `Containers` slice that is empty but not nil, such as `containers: []` in the file. The model has one empty list, which counts as the zero value. So for a file with `containers: []`, `duration: 0` and every other setting omitted, the model reports the empty configuration before the missing containers, where the daemon reports only the missing containers. Both reject the configuration.
- Sending: the SMTP and HTTP calls of the alerters' `Alert` methods, the logging in `AlertList.Send` and the goroutines are not modelled. A send is recorded as a `Dispatch` in an `Outbox`.
- Logging (`Alert.Log`, `AlertList.Log` and the `log.Println` calls) is output only and is not modelled.
- Monitor.Monitor: with `Iterations` 0 the daemon loops forever, and that branch is not modelled. The sleep of `Duration` milliseconds between cycles is not modelled either.
- `AlertStarting`, `AlertStopping` and `Start` (cmd/monitor.go:170-221) react to process signals and start the daemon; they are not modelled.
- The command line and the loading of the configuration file (cmd/root.go:45-101) are not modelled. A `Conf` is built with its constructor.
