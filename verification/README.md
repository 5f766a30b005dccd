# Integration-suite verification model

A Dafny model of an integration-test harness that provisions containers for test scenarios, tears them
down again, and reports what the containers consumed. The model proves what the harness keeps, for every
configuration and for every way the container runtime can fail. `dafny verify dfyconfig.toml` checks all of it.

## What is modelled

**Scenario and resource lifecycle.** `ContainerRuntime` is the runtime as a set of labelled containers attached to
networks. An oracle decides for every call whether it succeeds, is refused, or goes wrong halfway (a failing start
that leaves its container behind, a removal that removes but reports an error); a call is identified by what it does
and how often it was made before, so quantifying over oracles covers every fault pattern and every order in which a
map or a listing is visited. `Environments` holds the record of owned resources with its best-effort teardown and the
label prune. `Provisioning` says what provisioning means: a plan of steps, run until the first failure, at which point
everything recorded is torn down. `Builders` and `Harness` are the staged code with its rollback on each failure path,
shown to do exactly that. `Plans` says what a scenario's plan consists of. `Calls` counts the calls a build and a
setup make and says when they succeed, `Order` in which order a setup asks, wherever it stops, and `Placement` what a
successful setup leaves in place: which container runs where, from which image, and at which address it is found.
`Lifecycle`, `Networks`, `Bystanders`, `Connectivity` and `Runs` prove the consequences: no foreign container is
touched, nothing leaks, when the network stays, which containers of others a setup takes away, what the connectivity
checks can rely on, and when a scenario is alive in a run of any number of tests. `NetworkRuns` counts the networks
such runs leave over. `TestRun` shows that the suite's methods carry out the events those runs consist of.

**Resource accounting.** `Metrics` and `Accounting` fold samples into peaks (64-bit wrap-around written out),
`Entries` says what a line of statistics contributes, `Units` and `ByteFormat` read and print byte counts,
`ImageNames` and `Report` name containers, and `Sampler` is the protocol between the sampling thread and the main
program.

**Configuration.** `EnvFile` loads `.env` files into the process environment, `EnvLines` says what every kind of line
in one means, `ConfigSearch` walks upwards for the two files and loads the configuration, `Paths` cleans and joins the
paths it walks, `Config` resolves images and directories.

## What the code does that its documentation does not say

- Tearing down removes the network before it prunes (pkg/env/environment.go:98-107), so a container on the
  network that is not recorded keeps the network alive although it is itself pruned right afterwards
  (Networks.FailedSetupLeaksNetworkIff, Networks.SessionRestoresNetworksIff). On a runtime that never fails this
  happens exactly for a scenario with a repeated Redis alias (Networks.FlawlessSessionRestoresNetworksIff), and over a
  whole run exactly when a test that alone holds such a scenario cleans up while it is active
  (NetworkRuns.FlawlessRunLeaves).
- A network whose creation reports an error is never recorded (pkg/env/builder.go:107-111), so one that was created all
  the same stays for good (Networks.FailedSetupLeaksNetworkIff).
- Whether a setup leaves managed containers of others alone depends on its outcome: a failing one can remove a
  container it never created, through the prune of its rollback (Bystanders.SetupTakesIff, Bystanders.MayTakeIff,
  Bystanders.SetupTakesBystander).
- A test's cleanup tears down the scenario it was given and clears the active scenario whatever is active by then
  (suites/common/harness.go:199-209), and every setup that is not a reuse prunes all managed containers. Tests that
  overlap keep each other alive only as long as all of them set up under one name and none cleans up.
- A setup under another name that fails leaves a dead scenario active (pkg/env/builder.go:89,
  suites/common/harness.go:161-162; Runs.SafeIffNotThreatening, Runs.HijackReachable).
- The network name of a scenario is used in an error message only (pkg/env/builder.go:107-110), while README.md:210 and
  the design record show it as the name of the bridge network. This is read off the source, not proved: the network has
  a generated name there and none in the model.
- The Flyway image comes from the builder's own configuration (pkg/env/builder.go:312), which `Setup` never sets. The
  image named in `config.yaml` is used for migrations exactly when it is the one used anyway
  (Plans.MigrationsUseConfiguredImageIff; a configuration with another one: Plans.ConfiguredImageIgnored).
- A scenario is shared by name alone (suites/common/harness.go:122), so a test can be given one that lacks what its own
  configuration asks for (when: Runs.SetupServesIff, a run: Runs.SharedLacksReachable).
- A broker lookup that answers an empty address is accepted (pkg/env/builder.go:246-251), and the connectivity checks
  then fail (Connectivity.FreshSetupConnects).
- The upward search takes the working directory's text as it stands. If it ends in a double dot, the search looks into
  the child before that dot, which is no ancestor (ConfigSearch.SearchFindsNearestIff, ConfigSearch.SidestepReachable).
- Printed sizes from 1 TiB on cannot be read back, as the parser has no row for that unit (ByteFormat.FaithfulIff). From
  1 PiB on printing fails (ByteFormat.PrintableIff).
- `LoadEnv` does overwrite variables that are present but empty (pkg/config/config.go:99, 127-129;
  EnvFile.PresentKeptIff).
- A `.env` file that sets `ENV_PATH` redirects later loads of the same run to another file (ConfigSearch.SameEnvFileIff).

## Model

| member | source | states |
|---|---|---|
| ContainerRuntime.DefaultLabels | pkg/env/prune.go:21-30 | every container of the harness carries the managed label; the service label is there exactly for a non-empty name |
| ContainerRuntime.RemovedOneMore | pkg/env/environment.go:64-96 | removals of different containers commute: outcomes and final state depend only on the set removed |
| ContainerRuntime.Runtime.List | pkg/env/prune.go:47-54 | the listing returns exactly the containers with the label value, each once, in some order |
| Environments.PruneManagedContainers | pkg/env/prune.go:34-64 | a failed client or listing removes nothing and is reported; otherwise every managed container is force-removed once and refusals are not reported |
| Environments.Environment.Teardown | pkg/env/environment.go:48-113 | every recorded container is terminated, then the network, then the prune, whatever fails; the errors are exactly one per failing step |
| Lifecycle.TeardownSurvivors | pkg/env/environment.go:64-107 | for any faults, exactly which containers survive a teardown |
| Lifecycle.SilentTeardownReleasesAll | pkg/env/environment.go:109-112 | a nil result means every recorded container and the network are gone |
| Lifecycle.TeardownAttemptsEverything | pkg/env/environment.go:64-107 | whatever fails, a teardown makes exactly one termination per recorded container, one network removal, and the prune's own calls, a client being opened in any case |
| Lifecycle.PruneReportedIff | pkg/env/environment.go:104-112 | a failed prune is reported if and only if its client cannot be opened or its listing fails |
| Lifecycle.TerminationReportedIff | pkg/env/environment.go:64-96 | a container is reported, for its own place, if and only if its termination fails |
| Lifecycle.NetworkReportedIff | pkg/env/environment.go:98-102 | the network is reported if and only if its removal fails or a container keeps it |
| Lifecycle.AsManyErrorsAsFailures | pkg/env/environment.go:48-113 | there are exactly as many errors as failing steps |
| Lifecycle.SilentIff | pkg/env/environment.go:109-112 | a teardown returns nil if and only if every recorded container can be terminated, nothing keeps the network and its removal, the client and the listing succeed |
| Builders.Builder.constructor | pkg/env/builder.go:47-52 | the initial blueprint |
| Builders.Builder.WithConfig | pkg/env/builder.go:54-57 | sets the builder's own configuration and nothing else |
| Builders.Builder.WithNetwork | pkg/env/builder.go:59-62 | sets the network name and nothing else |
| Builders.Builder.WithMySQL | pkg/env/builder.go:64-67 | requests MySQL and nothing else |
| Builders.Builder.WithKafka | pkg/env/builder.go:69-72 | requests Kafka topics and nothing else |
| Builders.Builder.WithRedisInstance | pkg/env/builder.go:74-77 | appends an alias, repeated ones included |
| Builders.Builder.WithWireMock | pkg/env/builder.go:79-82 | requests WireMock and nothing else |
| Builders.Builder.Build | pkg/env/builder.go:85-300 | the staged code with its rollbacks is the run of the plan: same calls, same record, and on the first failure a teardown of what was recorded by then |
| Calls.BuildSucceedsIff | pkg/env/builder.go:85-300 | on any runtime a build succeeds if and only if there is a configuration, the network is created and every call it was asked for succeeds; so a topic, a database or a migration that cannot be had makes it fail |
| Calls.BuildMakes | pkg/env/builder.go:85-300 | a successful build has made every call it was asked for exactly as often as it was asked for it: every topic and every database as often as it is listed, one check and one exit status per migration; and it has started as many containers |
| Calls.GivenConfigActsAsLoaded | pkg/env/builder.go:91-98 | a configuration given to the builder is used instead of the loaded one |
| Placement.BuildLocatesMySQL | pkg/env/builder.go:138-158 | the connection is to the first database asked for, or to the server's own one if none is, at the port the runtime named |
| Builders.Builder.BuildMySQL | pkg/env/builder.go:114-193 | the MySQL stage runs its steps or rolls back |
| Builders.Builder.DiscoverMigrations | pkg/env/builder.go:169-181 | migrations are those of the databases whose checkout has a migration directory, in order |
| Plans.DiscoveredOne | pkg/env/builder.go:169-181 | a database is migrated from the directory named by the variable of the service named like it, or else from its sibling checkout, if that has a migration directory |
| Plans.DiscoveredAppend | pkg/env/builder.go:169-181 | databases are looked at one by one, in order |
| Builders.Builder.RunMigrations | pkg/env/builder.go:184-192 | migrations without a directory are skipped; the first failing one rolls back |
| Builders.Builder.RunFlywayMigration | pkg/env/builder.go:302-359 | the ephemeral container is terminated whatever became of the migration, and a failure to do so is not reported |
| Calls.MigratedLog | pkg/env/builder.go:302-359 | exactly the calls of a migration: wherever its container has started, its status is asked for and it is terminated, and the migration succeeds if and only if the status does |
| Networks.MigratedContainers | pkg/env/builder.go:318-345 | a migration leaves no container behind, unless it strands one, which then carries the labels of its database's migration |
| Builders.Builder.BuildRedis | pkg/env/builder.go:196-231 | the Redis stage runs its steps or rolls back; a repeated alias overwrites the record |
| Builders.Builder.BuildKafka | pkg/env/builder.go:234-262 | the Kafka stage runs its steps or rolls back; an empty broker list is a failure |
| Builders.Builder.BuildWireMock | pkg/env/builder.go:265-297 | the WireMock stage runs its steps or rolls back |
| Provisioning.ExecAppend | pkg/env/builder.go:85-300 | stages compose: running one plan after the other is running both, with the same rollback |
| Provisioning.DoSound | pkg/env/environment.go:16-37 | every step keeps the record free of duplicates and of identifiers not handed out |
| Harness.Suite.Configure | suites/common/harness.go:133-159 | the builder is asked for exactly what the scenario declares |
| Harness.NetworkNameIs | suites/common/harness.go:133-136 | without a name of its own the network is named after the scenario, character by character |
| Calls.SetupSucceedsIff | suites/common/harness.go:133-193 | on any runtime a setup that is no reuse succeeds if and only if the configuration loads, the network is created and every call its configuration asks for succeeds |
| Calls.SetupMakes | suites/common/harness.go:133-193 | a successful setup has made every call its configuration asks for exactly as often as it asks for it, no other one, and started as many containers |
| Calls.UnloadedFails | pkg/env/builder.go:91-98 | without a configuration a setup fails right after its prune |
| Order.SetupSequenced | pkg/env/builder.go:114-297 | wherever a setup stops, on any runtime, what it has asked so far it has asked in order: no database before the connection, no migration before all databases, no topic before the broker, no application before all backing services |
| Placement.SetupHolds | suites/common/harness.go:133-193 | a successful setup holds a container in every place it was asked for and in no other, each on its network with its service's labels |
| Placement.MySQLRuns | pkg/env/builder.go:114-142 | the database runs under its own name, from the image of the configuration, or of its variable, or the built-in one |
| Placement.RedisRuns | pkg/env/builder.go:196-215 | every Redis alias runs under its own name from the Redis image |
| Placement.KafkaRuns | pkg/env/builder.go:234-246 | the broker runs under its own name from its own image |
| Placement.WireMockRuns | pkg/env/builder.go:265-284 | the mock service runs under its own name from its own image |
| Placement.ServiceRuns | pkg/catalog/runner.go:20-50 | every application runs under its own name, from the scenario's override, or else the image its variable names, or else its default, or else its latest |
| Placement.SetupLocatesMySQL | pkg/env/builder.go:138-158 | the connection is to the scenario's first database at the port the runtime named |
| Placement.SetupLocatesBroker | pkg/env/builder.go:248-254 | the broker's address is the first one its lookup named |
| Placement.SetupLocatesWireMock | pkg/env/builder.go:286-291 | the mock service's address is the port the runtime named |
| Placement.SetupLocatesAlias | pkg/env/builder.go:217-230 | every alias has the address the runtime named last |
| Placement.SetupExposes | suites/common/harness.go:172-193 | every endpoint key, given or else the service's name, leads to the last service exposed under it at the port the runtime named, every application name to the last container of the name, and there are no others |
| Config.EnvKeyIs | pkg/config/config.go:168-172 | the variables of a service are its name in capitals with underscores for hyphens, and a suffix |
| Config.LocalImageIs | pkg/config/config.go:185-197 | the image of an application: its variable's, or else its default, or else its latest |
| Config.LocalRepoDirIs | pkg/config/config.go:199-211 | the checkout of a service: its variable's directory, or else the default one, or else its sibling |
| Config.ImageIs | pkg/config/config.go:213-229 | the image of a backing service: the configuration's, or else its variable's, or else the default |
| Config.DefaultsAgree | pkg/config/config.go:28-43 | the built-in configuration names the images that are used without any configuration |
| Harness.Suite.Provision | suites/common/harness.go:161-193 | backing services and then applications are provisioned, or everything is rolled back |
| Harness.Suite.Setup | suites/common/harness.go:115-217 | a scenario of the same name is shared untouched, otherwise a fresh one becomes active; a failure leaves the active scenario as it was |
| Harness.Suite.Cleanup | suites/common/harness.go:199-209 | tears the test's own scenario down and clears the active one |
| Harness.Scenario.LaunchServices | suites/common/harness.go:172-193 | the services' plan is run in order with rollback |
| Harness.Scenario.StartService | pkg/catalog/runner.go:20-50 | a started application is recorded in the environment; its image is the override, the local image or the default |
| Harness.Scenario.ExposePort | pkg/catalog/runner.go:53-59 | the endpoint is recorded under its key, or everything is rolled back |
| Lifecycle.ExecEvolves | pkg/env/builder.go:106-300 | every step of every plan leaves foreign containers and networks alone and starts managed containers only |
| Lifecycle.ProvisionedEvolves | suites/common/harness.go:138-193 | a setup, successful or failing, leaves every unmanaged container and every network it did not create alone and starts managed containers only |
| Bystanders.SetupTakesIff | pkg/env/builder.go:89-300 | for any faults, a container that outlives the start-up prune is removed by the setup if and only if it is managed, the setup fails after creating its network, and its rollback's prune takes the container; a successful setup removes none |
| Bystanders.MayTakeIff | pkg/env/builder.go:89-300 | known before the call: some runtime lets the setup take a container after its start-up prune if and only if the container is managed, the configuration loads and there is anything to provision |
| Bystanders.SetupTakesBystander | pkg/env/environment.go:104-107 | a concrete failing setup that removes a managed container it never created |
| Lifecycle.FailedBuildLeavesForeign | pkg/env/builder.go:85-300 | for every builder configuration and failure point, with reliable pruning exactly the foreign containers remain |
| Lifecycle.FailedSetupLeavesForeign | suites/common/harness.go:161-191 | the same for a whole setup, application stage included |
| Networks.NetworkGoesIff | pkg/env/environment.go:98-107 | for any faults, a teardown removes the network if and only if the removal is not refused and nothing attached outlives the terminations |
| Networks.StopStrands | pkg/env/builder.go:106-358 | in every run of a plan the record is live, and an unrecorded container is on the network exactly when some step stranded one |
| Networks.NetworkStaysIff | pkg/env/environment.go:64-107 | for any faults, a teardown leaves a live environment's network if and only if something unrecorded is attached or a call before the prune is refused |
| Networks.FailedExecLeaksNetworkIff | pkg/env/builder.go:106-300 | for any faults, a failing plan leaks its network if and only if a container was stranded on it or the rollback is refused a call before its prune |
| Networks.FailedSetupLeaksNetworkIff | suites/common/harness.go:161-191 | for any faults and whatever a setup fails at, it leaks its network if and only if the creation took effect despite its error, or a container was stranded on it, or the rollback is refused a call before its prune; all other networks are as before |
| Networks.StrandsIffDuplicate | pkg/env/builder.go:215 | for any faults, a plan that completes has stranded a container exactly when it launches an alias twice or a migration container stayed |
| Networks.SessionRestoresNetworksIff | pkg/env/environment.go:48-113 | for any faults, a successful setup followed by teardown restores the networks if and only if the Redis aliases are distinct, no migration container stayed and the teardown is refused no call before its prune |
| Networks.FlawlessSessionRestoresNetworksIff | pkg/env/environment.go:48-113 | on a flawless runtime every setup succeeds and the networks are restored if and only if the Redis aliases are distinct |
| Plans.PlanLaunches | pkg/env/builder.go:114-297 | a scenario's plan launches its aliases in order and each other backing service at most once |
| Plans.PlanMigrates | pkg/env/builder.go:169-192 | a plan migrates if and only if some migration names a directory, and every migration runs the image resolved from the builder's own configuration |
| Plans.MigrationsUseConfiguredImageIff | pkg/env/builder.go:312 | the migrations run the image of the loaded configuration if and only if there are none, or its flyway entry is absent, empty or the one used anyway |
| Plans.ConfiguredImageIgnored | pkg/env/builder.go:312 | a configuration whose flyway image a migration does not run |
| NetworkRuns.RunLeavesForfeited | suites/common/harness.go:115-209 | for any faults and any overlap, once all tests have cleaned up the networks are those from before and one for every setup that leaked one and every last cleanup of a scenario whose network outlived it |
| NetworkRuns.FlawlessRunLeaves | suites/common/harness.go:115-209 | on a flawless runtime, told from the events alone, as many networks are left over as there were cleanups by a test that alone held the active scenario, with a Redis alias named twice |
| Connectivity.ExecInPlace | pkg/env/builder.go:114-297 | what a completed step put in place is still there when the plan has completed |
| Connectivity.FreshSetupConnects | suites/common/connectivity.go:17-86 | for any runtime, a successful fresh setup meets every non-nil and non-empty precondition of the connectivity checks, if and only if the address of a requested broker is not empty |
| Connectivity.FreshSetupProvides | suites/common/harness.go:133-193 | it provides exactly what its configuration asks for: database, clients, mock and endpoint keys, a broker only if asked for, and no others |
| Connectivity.ServesIff | suites/common/harness.go:122-131 | such a scenario meets the checks of another configuration if and only if its own covers that one and a requested broker has an address |
| Runs.HeldScenarioServesIff | suites/common/harness.go:118-209 | in every run a held scenario meets the checks of a configuration if and only if its own covers that one and a requested broker has an address |
| Runs.SetupServesIff | suites/common/harness.go:122-196 | known before the call: after any run, a successful setup gives its test what it asks for if and only if it is no reuse or the active scenario's configuration covers the test's |
| Runs.SharedLacksReachable | suites/common/harness.go:122-131 | a run after which a test shares a scenario that lacks the mock service it asks for |
| Runs.RunLeavesForeignAlone | pkg/env/prune.go:32-63 | no run removes or changes an unmanaged container or removes a network it did not create |
| Runs.ActiveStaysLive | suites/common/harness.go:118-209 | in every run in which no setup of another scenario fails while one is active, the active scenario has all its containers |
| Runs.StepBreaksActiveIffHijack | suites/common/harness.go:122-196 | with reliable pruning, a step breaks the active scenario if and only if it is such a setup and the scenario records a container |
| Runs.SafeIffNotThreatening | suites/common/harness.go:122-196 | an event leaves the active scenario alive on every reliably pruning runtime if and only if it is no setup under another name over an active scenario that records a container |
| Runs.HijackReachable | suites/common/harness.go:161-162 | a concrete two-event run after which the active scenario is dead |
| Runs.WipedIsDead | suites/common/harness.go:199-209 | with reliable pruning every cleanup and every setup that is no reuse ends every other scenario |
| Runs.CalmChangesNothing | suites/common/harness.go:118-131 | for any runtime, a run of setups under the active scenario's name makes no call and leaves the scenario active |
| Runs.DeadForever | suites/common/harness.go:115-217 | a scenario whose containers are gone never comes back in any run |
| Runs.LiveIffCalm | suites/common/harness.go:115-217 | with reliable pruning, a scenario is live at the end of a run if and only if the run consists of setups under its name only |
| Runs.SessionsStayClean | suites/common/harness.go:115-209 | tests that do not overlap: each scenario is live until its cleanup; after each cleanup or failed setup none is active and no managed container is left |
| TestRun.Perform | suites/common/harness.go:115-217 | the suite's methods carry out the events of a run |
| Units.DigitsBack | cmd/test-runner/main.go:271-273 | printed digits read back as the number |
| Units.AtMostOneRow | cmd/test-runner/main.go:249-257 | units that share their last letters never compete: at most one row of the table reads a text |
| Units.NumeralWithUnit | cmd/test-runner/main.go:229-264 | a numeral and a unit, with any white space between and around them, read as their product truncated toward zero |
| Units.UnitsMean | cmd/test-runner/main.go:235-247 | the units with an "i" are powers of 1024, the others powers of 1000 |
| Units.BareNumeral | cmd/test-runner/main.go:259-263 | a numeral alone counts bytes |
| Units.NothingRead | cmd/test-runner/main.go:229-264 | blank texts, dashes and texts that start like no numeral count nothing |
| Units.NumeralValue | cmd/test-runner/main.go:252 | what a signed numeral with a point is worth |
| Units.TimesTruncates | cmd/test-runner/main.go:253 | the product is truncated toward zero |
| ByteFormat.FormatMagnitude | cmd/test-runner/main.go:270-280 | the loop terminates and prints the count over the greatest power of 1024 not above it, or runs off the table of units |
| ByteFormat.DivisorsInRange | cmd/test-runner/main.go:274-278 | every divisor of the loop is at most the count, so within 64 bits, and is the power of 1024 that goes with its unit |
| ByteFormat.FormatBytes | cmd/test-runner/main.go:266-281 | the recursion on the sign, its one input without end included |
| ByteFormat.ScaleBounds | cmd/test-runner/main.go:274-278 | the scaled value is at least 1 and below 1024 |
| ByteFormat.SmallPrintedIs | cmd/test-runner/main.go:267-273 | below a KiB a count is printed in whole bytes |
| ByteFormat.NegativePrintedIs | cmd/test-runner/main.go:267-269 | a negative count is printed as its positive one with a minus sign |
| ByteFormat.PrintedIs | cmd/test-runner/main.go:270-280 | a count of a KiB or more is printed in the unit that makes it at least 1 and below 1024, rounded to the nearest hundredth, with two digits after the point |
| ByteFormat.PrintableIff | cmd/test-runner/main.go:279-280 | printing returns exactly below 2^50 in absolute value |
| ByteFormat.FaithfulIff | cmd/test-runner/main.go:229-281 | reading a printed count back is within half a hundredth of its unit plus one byte exactly below 2^40; otherwise it gives 0 |
| ByteFormat.ReadBackMonotone | cmd/test-runner/main.go:229-281 | printing and reading back keeps order, across unit boundaries too |
| ImageNames.ShortNameOfReference | cmd/test-runner/main.go:73-110 | whatever the registry path, tag, digest and surrounding white space, the short name is the lower-case base name without a leading cp- |
| Metrics.ContainerMetrics.Tally | cmd/test-runner/main.go:142-204 | the loop sums the sample, resolves new containers and raises per-container peaks |
| Metrics.ContainerMetrics.Update | cmd/test-runner/main.go:138-227 | one sample is folded into the peaks |
| Entries.MemoryIsUsage | cmd/test-runner/main.go:170-178 | of "used / limit" the memory in use counts, whatever the limit looks like |
| Entries.PairIs | cmd/test-runner/main.go:191-203 | the first of two counts is received or read, the second sent or written; anything but two counts nothing |
| Entries.CPUIsValue | cmd/test-runner/main.go:180-184 | a percentage is the value of its numeral, with or without a percent sign and white space |
| Entries.PIDsIsNumber | cmd/test-runner/main.go:186-189 | a process count is its number if that fits in 64 bits |
| Entries.IdentifiedBy | cmd/test-runner/main.go:148-152 | an entry is that of its identifier without white space, or else of its name |
| Entries.SightedIs | cmd/test-runner/main.go:154-168 | image and service are those inspected; the short name is made from the image, or else from the container's name |
| Entries.FirstUpdate | cmd/test-runner/main.go:138-227 | one line in the form the statistics have makes each peak what its own part of the line says |
| Accounting.ExactIsSum | cmd/test-runner/main.go:142-204 | every total of a sample is the sum of its own quantity over the entries |
| Accounting.SumIsExact | cmd/test-runner/main.go:142-204 | a sample's totals are exact whenever the exact totals fit in 64 bits, however far partial sums stray |
| Accounting.TotalsArePeaks | cmd/test-runner/main.go:206-226 | every total's peak is the greatest of zero and that total over the whole history |
| Accounting.ContainersArePeaks | cmd/test-runner/main.go:170-178 | every container's peak is the greatest of zero and its readings over the whole history |
| Accounting.PeaksIgnoreOrder | cmd/test-runner/main.go:148-226 | neither the order of entries nor the order of samples changes any peak |
| Accounting.ContainerBelowTotal | cmd/test-runner/main.go:170-208 | no container's peak exceeds the peak of the total, given non-negative sizes whose sums fit in 64 bits |
| Accounting.TotalBelowContainers | cmd/test-runner/main.go:170-208 | the peak of the total is at most the sum of the peaks when the sums fit and no sample names a container twice |
| Accounting.TwiceListedExceedsPeaks | cmd/test-runner/main.go:170-208 | without that condition the bound fails |
| Accounting.MetadataFixed | cmd/test-runner/main.go:154-168 | a container's metadata never changes once it has been seen |
| Accounting.MetadataFromFirstSighting | cmd/test-runner/main.go:154-168 | over a whole history the metadata is that found out at the first sighting |
| Accounting.KnownIffNamed | cmd/test-runner/main.go:154-168 | the containers known are exactly those some entry of the history names |
| Report.CountShortNames | cmd/test-runner/main.go:616-620 | counts the containers of every short name |
| Report.NameOne | cmd/test-runner/main.go:629-637 | the three ways a container is named |
| Report.DisplayNames | cmd/test-runner/main.go:616-644 | the names printed are the same for every order the map can be visited in |
| Report.NamesIgnoreOrder | cmd/test-runner/main.go:616-644 | the multiset of names does not depend on the order |
| Report.RenderInjective | cmd/test-runner/main.go:629-637 | readable labels that print alike are equal |
| Report.NamesDistinctIff | cmd/test-runner/main.go:616-644 | the names are pairwise distinct if and only if no two containers share both short name and labelled service |
| Report.NameAt | cmd/test-runner/main.go:616-644 | the name of every container: its short name if no other has that, or else with its service if it has one of another name, or else with a number counting from one |
| Sampler.ReportIsFoldOfSamples | cmd/test-runner/main.go:431-496 | in every interleaving the report reads exactly the fold of all non-empty samples polled |
| Sampler.NothingAfterJoin | cmd/test-runner/main.go:494-496 | after the wait for the sampler nothing is polled and no peak changes |
| Sampler.StopClosedOnce | cmd/test-runner/main.go:466-496 | the stop channel is never closed twice and is closed on both paths |
| Sampler.ReportReachable | cmd/test-runner/main.go:431-496 | whatever samples are polled, some interleaving reaches a report, and it is their fold |
| Sampler.NoReportWithoutChild | cmd/test-runner/main.go:466-471 | if the child cannot be started, nothing is ever reported |
| Sampler.ExitReachable | cmd/test-runner/main.go:466-471 | and the program can then exit |
| EnvFile.Process.LoadEnv | pkg/config/config.go:100-132 | which files are errors, and the environment afterwards |
| EnvFile.Process.LoadLine | pkg/config/config.go:113-130 | what one line assigns |
| EnvFile.FirstAssignmentWins | pkg/config/config.go:98-132 | an existing non-empty value wins, otherwise the first non-empty assignment |
| EnvFile.PresentKeptIff | pkg/config/config.go:99-129 | a present variable keeps its value if and only if it is non-empty or the file gives it none |
| EnvFile.LoadingTwiceIsOnce | pkg/config/config.go:100-132 | loading a file twice is loading it once |
| EnvFile.FileReadsBack | pkg/config/config.go:112-129 | whatever assignments are written as quoted lines are parsed back in order |
| EnvFile.WrittenFileLoads | pkg/config/config.go:100-132 | loading them into an empty environment gives each name its first non-empty value |
| EnvFile.WrittenValueReadsBack | pkg/config/config.go:100-132 | a name written once reads back verbatim |
| EnvLines.SettingReads | pkg/config/config.go:112-129 | a setting, plain or in quotes of either kind, with any white space around name, sign and value, reads as its name and value; a quote at one end only is kept |
| EnvLines.SilentIff | pkg/config/config.go:113-120 | a line sets nothing if and only if it is blank, a comment, or without an equals sign |
| EnvLines.ItemsRead | pkg/config/config.go:112-129 | whatever lines a file consists of, what is read from it is its settings, in order |
| EnvLines.ItemsLoad | pkg/config/config.go:100-132 | loading such a file leaves variables that are set to something and gives the others the first non-empty value |
| EnvLines.ImageSetting | pkg/config/config.go:100-197 | a plain setting of a service's image is the image the service is started with, whatever its default |
| Paths.Parts | pkg/config/config.go:50-53 | a rooted text, clean or not, is given back by its parts |
| Paths.DirSameIff | pkg/config/config.go:61-64 | a directory's text is that of its parent only at the root, so that is where the walk ends |
| Paths.CleanOneMore | pkg/config/config.go:50-64 | what one more part of a path leads to: nothing new, the parent, or a child |
| ConfigSearch.FindUpwards | pkg/config/config.go:50-68 | the walk terminates on the path and computes the search |
| ConfigSearch.SearchFindsNearestIff | pkg/config/config.go:71-96 | from any working directory, clean or not, the file found is that of the nearest ancestor holding one, and none only if no ancestor does, if and only if the search does not sidestep into a child |
| ConfigSearch.SidestepReachable | pkg/config/config.go:71-96 | working directories from which the search finds a file no ancestor holds |
| ConfigSearch.Load | pkg/config/config.go:136-166 | the environment and the configuration after a load, errors and defaults included |
| ConfigSearch.ConfigFileIs | pkg/config/config.go:45-68 | the configuration file is the one the environment names, or else the one found, or else one by its bare name |
| ConfigSearch.EnvFileIs | pkg/config/config.go:72-96 | the same for the .env file, except that there may be none |
| ConfigSearch.ConfigIs | pkg/config/config.go:141-166 | a missing file gives the built-in configuration, one that cannot be read or decoded an error, and any other what it decodes to, with a binary in any case |
| ConfigSearch.SameEnvFileIff | pkg/config/config.go:71-96 | the next load finds the same .env file if and only if the first one did not redirect it |
| ConfigSearch.LoadsAgree | pkg/config/config.go:136-166 | then all loads of a run resolve the same files, configuration and images |
| ConfigSearch.HostIsFixed | pkg/env/builder.go:91-98 | then every load tells the setups of a run the same about their host, which is why a run has one |

## Left out

- Podman, Kafka, MySQL, Redis, WireMock and Flyway themselves: each call into them is one step whose outcome the oracle
  decides; container crashes, other processes using the runtime and contexts that expire are failure causes only.
- Builders.Builder.Build: the configuration is one fixed answer for a whole run instead of being loaded again before
  every container; ConfigSearch.HostIsFixed says when that is what happens.
- Units.ParseDecimal: the number parser is modelled on signs, digits and a point; exponents, hexadecimal, underscores,
  infinities and NaN, which the statistics never contain, are taken as unreadable.
- Units.Times: products and quotients are exact decimals, so rounding of binary fractions, which can move a truncation by
  one byte, and conversions beyond 64 bits are not modelled.
- Metrics.CPU: percentages are exact rationals and their sums do not round.
- Strings.ToUpper: upper and lower case are those of ASCII letters; texts are sequences of characters, so malformed UTF-8
  does not occur.
- Metrics.Sighted: a container's image and label are a function of its identifier; it is asked once per container.
- ConfigSearch.Load: decoding YAML is a parameter, and so is the working directory, which is any rooted text.
- Closing database and Redis connections, log dumps, subtests, report layout, sorting of the report's lines, durations and
  exit codes: no state that later steps depend on, or easy members only.
- Setting DOCKER_HOST and finding the podman binary: environment plumbing before the first runtime call.
- The status of a run ended by a signal: it is written by another thread without synchronisation, so it is not determined.
- Whether the sampler ever sees the closed channel: that depends on a fair choice between ready cases; only safety is proved.
- Field checks and fixtures of the contract package, truncating tables and flushing caches, the image puller, and generated
  protobuf code: easy members or code of other libraries.
