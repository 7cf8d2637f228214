# Mattermost probe orchestrator, modelled in Dafny

The `probe` package of Mattermost-probe is a synthetic-monitoring supervisor.
It builds a list of health-check probes against a Mattermost server from the
`Enabled` flags of its configuration, wires each probe to the collaborators it
needs, and drives every probe through `Setup` and then `Start`. Both passes
stop at the first failure.

This project models that package, `probe/probe.go`, and proves what it promises:

- `errors.dfy` (module `Errors`): Go's `error` values as the package sees them.
  `None` is nil, `Fault` is an error a probe returns, and `Wrapped(msg, cause)`
  is the result of `errors.Wrap(cause, msg)`.
- `factory.dfy` (module `Factory`): `NewProbes`. It is a method that grows the
  list one conditional append at a time, as the Go code does. It is proved
  equal to a table-driven reference list, `Expected(cfg)`, which walks the six
  kinds in declaration order and appends the instances of each enabled kind.
  Lemmas then state what that list is:
  - which kinds appear;
  - how many instances there are;
  - their order;
  - the wiring of each instance;
  - the login pair.

  A probe instance is a `ProbeDesc(kind, clients, user, hasReportChannel)`.
  The clients are the slots `Client1`/`Client2`, meaning the arguments `c1`/`c2`
  of `NewProbes`. The user is `UserA`/`UserB`, meaning `cfg.UserA`/`cfg.UserB`.
  Recording which slot each instance got makes "never cross-wired" provable
  even when the two clients or the two users happen to be equal values.
- `lifecycle.dfy` (module `Lifecycle`): `SetupProbes` and `StartProbes`. Each is
  a method with a loop over the list.
  - The probes' own `String`, `Setup` and `Start` are not visible. They are
    given as `behaviour: P -> Behaviour`, the label each probe reports and the
    error, or nil, that its `Setup` and its `Start` return.
  - A ghost out-parameter `invoked` records the list index of every probe the
    loop called, in call order.
  - The contracts state the fail-fast behaviour: calls go in list order
    starting from the first probe, and the result is nil exactly when every
    call succeeded. On the first failure, at index k, the error is the cause
    wrapped with `"Could not start probe " + label`, and no probe after k is
    called.

The setup path wraps its error with the word "start", just as
`probe/probe.go:64` does. The model keeps that wording.

## Model

| member | source | states |
|---|---|---|
| `Factory.NewProbes` | probe/probe.go:21-57 | The list built by the chain of conditional appends is exactly the reference list `Expected(cfg)`: the instances of each enabled kind, in declaration order. |
| `Factory.Instances` | probe/probe.go:24-52 | An enabled kind contributes one instance of that kind, and login contributes two: (client 1, UserA) then (client 2, UserB). Every instance is wired as its kind requires. |
| `Factory.KindPresence` | probe/probe.go:23-54 | A kind appears in the output if and only if its `Enabled` flag is set. |
| `Factory.Count` | probe/probe.go:22-56 | The output length is the number of set flags, with login counting twice. The output is empty exactly when no flag is set. |
| `Factory.DeclarationOrder` | probe/probe.go:23-54 | Instances appear in the order broadcast, channel-join, ping, search, login, API-ping. Two instances share a kind only if they are the adjacent login pair. |
| `Factory.Wiring` | probe/probe.go:23-53 | Broadcast gets clients (c1, c2) and the report channel. Search gets c1 and the report channel. Channel-join, ping and API-ping get c1 only, with no user and no report channel. |
| `Factory.LoginPair` | probe/probe.go:45-49 | With login enabled, the (c1, UserA) instance is immediately followed by the (c2, UserB) instance, and no other login instance exists. With login disabled, there is no login instance. |
| `Lifecycle.WrapMessage` | probe/probe.go:64 | The context message is the fixed prefix "Could not start probe " followed by the probe's label, and the label can be read back from it. The same message is built for Start failures at probe/probe.go:75. |
| `Lifecycle.SetupProbes` | probe/probe.go:60-68 | Setup is called on probes 0, 1, 2, … in list order. The result is nil iff every Setup returned nil, in which case every probe was called. Otherwise the last call, at index k, is the first failing one: every earlier Setup succeeded, the result wraps that cause with "Could not start probe " + its label, and no probe after k is called. An empty list gives nil and no calls. |
| `Lifecycle.StartProbes` | probe/probe.go:71-79 | The same contract as SetupProbes, for Start: calls go in list order, the result is nil iff all succeed, the first failure is wrapped with its probe's label, and later probes are never started. |

## Left out

- The concrete probes (`NewBroadcastProbe`, `NewChannelJoinProbe`, `NewPingProbe`, `NewSearchProbe`, `NewLoginProbe`, `NewAPIPingProbe`) are not part of this model. They live in other files and make network calls. Only each instance's kind and the collaborators it is handed are modelled, and the per-kind configuration options passed to the constructors are not.
- `String`, `Setup` and `Start` of the individual probes are not part of this model. Their observable outcome is the `behaviour` parameter of the drivers, a fixed label and one error per call.
- The outcome of a probe's `Setup` and `Start` is a function of the probe value, fixed for the one call each driver makes. Two equal list entries therefore behave alike. Pairing each entry with its index as `P` lifts this restriction.
- The service clients (`*mattermost.Client`) and the user records are modelled as slot tokens. They are only passed through.
- The report channel (`chan metrics.Report`) is modelled as the flag `hasReportChannel`, not as a queue. `NewProbes` only hands it out, and probe/probe.go never reads or writes it. The broadcast and search probes, which are not modelled, write reports to it.
- The background goroutines a probe may launch from `Start` are not modelled. That concurrency is inside the probes.
- The `logrus` progress lines (probe/probe.go:62, 73) are not modelled. They only narrate the passes.
- The text that `errors.Wrap` produces from its message and cause is not modelled. The wrapped error is the pair `Wrapped(msg, cause)`.
- The caller's sequencing, which runs Setup for all probes before Start for any, is outside this package and not modelled.
