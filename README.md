# slow-api: a Dafny model of the delay responder

slow-api is a small HTTP test double. Each of its endpoints waits a random
number of milliseconds from a fixed range and then answers with a health
record `{status, timestamp, delay_ms, service_name}`. Load-test and
chaos-test setups point their timeout and retry logic at it.

This project models the logic of `main.go` as pure functions and lemmas:

- `responder.dfy` (module `Responder`) covers the handler that
  `createInstanceHandler` returns. It chooses the delay from `(min, max)` and
  a random draw, and builds the `HealthResponse`. The draw `r` stands for the
  result of `rand.Intn(max - min + 1)`; `ValidDraw` says which values it can
  take. The clock reading is an opaque string `now`.
- `server.dfy` (module `Server`) covers the route table that maps
  `/instance1..3` to their bounds and names. It also covers the startup
  configuration (`MIN_TIMEOUT`, `MAX_TIMEOUT`, `PORT`).
- `env.dfy` (module `Env`) covers `getEnv` and `getEnvAsInt`. The process
  environment is a `map<string, string>`; an absent key and an empty value
  both count as unset.
- `decimal.dfy` (module `Decimal`) models `strconv.Atoi`. It accepts an
  optional `+`/`-` and then one or more ASCII digits, and the value must fit
  Go's 64-bit `int`. The module also models `strconv.Itoa`, the decimal
  rendering used to state the round trips.
- `wrappers.dfy` (module `Wrappers`) defines the `Option` type.

The program serves three fixed routes, each with constant bounds and a
constant service name.
`MIN_TIMEOUT`/`MAX_TIMEOUT` (defaults 1000 and
10000) are read and logged, but no handler uses them. Bounds are plain
integers: the code does not require them to be non-negative.

## Model

| member | source | states |
|---|---|---|
| `Responder.ChooseDelay` | main.go:38-43 | if `max > min` and the draw is valid, `min <= delay <= max`; if `max <= min`, the delay is exactly `min`, even when `min > max` |
| `Responder.DrawReaches` | main.go:40 | every delay in `[min, max]` comes from the valid draw `delay - min` |
| `Responder.DrawInjective` | main.go:40 | two valid draws that give the same delay are equal |
| `Responder.DelayImage` | main.go:40 | the delays the valid draws produce are exactly the integers of the closed interval `[min, max]` |
| `Responder.DelayPreimage` | main.go:40 | for each delay in `[min, max]`, the set of valid draws that produce it is `{delay - min}`, so its size is 1 and a uniform draw gives a uniform delay |
| `Responder.Handle` | main.go:35-54 | the response has status `"ok"`, the given timestamp, the handler's `serviceName` and the chosen delay, so the delay meets the same bounds as `ChooseDelay` |
| `Responder.JsonKeys` | main.go:14-19 | the body holds `status`, `timestamp` and `delay_ms`, and `service_name` exactly when the name is non-empty (`omitempty`); no other key appears and none repeats (three keys, or four with a name) |
| `Server.RouteTable` | main.go:61-63 | `/instance1` maps to `("instance1", 500, 1000)`, `/instance2` to `("instance2", 1000, 2000)` and `/instance3` to `("instance3", 2000, 4000)`; no other path has a handler |
| `Server.RouteFor` | main.go:61-63 | the lookup of the route table: only the three instance paths have a route, each with `0 <= min < max` and a path that is `/` followed by its service name |
| `Server.Serve` | main.go:61-63 | a request gets a response exactly on the three instance paths; that response has status `"ok"`, the route's name and a delay within the route's bounds, and it is the route's handler response for the same draw and time |
| `Server.ServeInstance2` | main.go:62 | `GET /instance2` reports `instance2` and a delay in `[1000, 2000]` |
| `Server.RouteDelayReachable` | main.go:61-63 | every delay within a route's bounds is produced by some valid draw |
| `Server.StartupConfig` | main.go:28-66 | the port is never empty: a set `PORT` is used as given, and an unset or empty one gives `"8081"` (line 66); a set `MIN_TIMEOUT`/`MAX_TIMEOUT` that parses gives the parsed value, and an unset, empty or unparseable one gives 1000/10000 (lines 28-29) |
| `Server.DefaultConfig` | main.go:28-29 | an empty environment gives timeouts 1000/10000 and port `"8081"` |
| `Server.ConfigOfRenderedTimeouts` | main.go:28-29 | timeouts stored in the environment as decimal text are read back as the same integers |
| `Env.GetEnv` | main.go:75-80 | returns the value when the key maps to a non-empty string; returns the default when the key is absent or maps to `""` |
| `Env.GetEnvNonEmpty` | main.go:75-80 | with a non-empty default the result is never empty |
| `Env.EmptyIsUnset` | main.go:76 | setting a key to `""` has the same effect as removing it, for both lookups |
| `Env.GetEnvAsInt` | main.go:83-90 | returns the parsed integer when the value is non-empty and parses; returns the default when the value is absent, empty or unparseable; the result is the default or fits a Go `int` |
| `Env.GetEnvAsIntIsParseWithFallback` | main.go:83-90 | `getEnvAsInt` equals `Atoi` applied to `getEnv` with an empty default, falling back to the default when the parse fails |
| `Env.GetEnvAsIntOfRendering` | main.go:85-86 | a variable holding the decimal rendering of `n` yields `n` when `n` fits a Go `int`, and the default otherwise |
| `Env.GetEnvAsIntIgnoresMalformed` | main.go:85-89 | a value with a character that is neither a digit nor a leading sign leaves the default in force |
| `Env.GetEnvAsIntOfLetters` | main.go:83-90 | `MIN_TIMEOUT=abc` yields the default |
| `Decimal.Atoi` | main.go:85 | a successful parse fits Go's `int` range, and the input contains at least one digit |
| `Decimal.AtoiOfSignedDigits` | main.go:85 | no sign, `+` or `-` followed by a run of digits parses to the signed value of the digits, or fails when that value does not fit an `int` |
| `Decimal.AtoiRejectsNonDigit` | main.go:85 | a character other than a digit or a leading sign makes the parse fail |
| `Decimal.AtoiRejectsEmpty` | main.go:85 | the empty string and a bare sign do not parse |
| `Decimal.AtoiOfIntToString` | main.go:85 | parsing the decimal rendering of `n` gives `n` for every `n` in Go's `int` range, and fails outside it |
| `Decimal.IntToStringOfAtoi` | main.go:85 | rendering the value of a canonical string that parses (no `+`, no superfluous zeros, no `-0`) gives back the string |

## Left out

- HTTP serving: the Gin router, `c.JSON`, `router.Run` and the fatal exit when binding fails (main.go:31-32, 56, 69-71) belong to the framework. `JsonKeys` only records which keys the body holds.
- `time.Sleep` (main.go:46): the model records the delay the request waits; it does not model the waiting itself or concurrent requests.
- `time.Now().Format(time.RFC3339)` (main.go:51): the timestamp is an opaque input string.
- `math/rand` (main.go:40): the draw is a parameter constrained by `ValidDraw`. The random generator is not modelled, and neither is its uniformity, which `DelayPreimage` takes as given.
- `godotenv.Load` and `log.Printf` / `log.Fatal` (main.go:23-24, 67, 70): these are file I/O and logging. `os.Getenv` is the lookup `Env.Getenv` on the environment map.
- Responder.ChooseDelay: does not model overflow of Go's `int` in `max - min + 1` or in `min + r`. Integers are unbounded, which makes no difference for the three fixed routes.
- Decimal.Atoi: assumes a 64-bit platform for the range of Go's `int`. The error value that `strconv.Atoi` returns is reduced to `None`, because `getEnvAsInt` discards it.
