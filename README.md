# blight-notify: the debounce loop, in Dafny

blight-notify is a backlight notification daemon. A polling watcher observes
each device's `brightness` file under `/sys/class/backlight`. On every change
its handler reads the brightness and the `max_brightness` next to it and sends
the reading over an mpsc channel. The consumer loop in `main` collapses a burst
of readings into one settled value and raises one desktop notification
`"<message> <percent>%"` for it.

This project models that pipeline and proves what it promises:

- `Coalescing` (coalescing.dfy) states the debounce rule on values. One
  blocking receive yields `v`. One non-blocking receive may yield a second
  value `x`. Only if it does, a drain phase of exactly 10 sleep-then-`try_recv`
  slots follows. The settled value is the last drained value, else `x`, else
  `v`. The rule is stated on receive outcomes (`Settle`) and on a FIFO queue
  plus the values sent during each drain slot (`Drain`, `CycleOf`).
- `Channels` (channel.dfy) is the channel as a class whose `queue` the
  methods update. `Daemon` (daemon.dfy) runs a cycle on it with a 10-slot loop
  (`DrainPhase`, `RunCycle`), proved equal to the pure rule. It also runs the
  main loop over a finite run of bursts (`Serve`), one notification per cycle.
- `Notifier` (notifier.dfy) formats the body, proves that the body gives the
  percentage back, and records the fixed notification fields.
- `Paths` and `Watching` (paths.dfy, watching.dfy) build the watched paths,
  register them with the watcher, and model the handler.
- `Options` (options.dfy) holds Rust's `Option`/`Result` as datatypes.

The value type of the channel is generic. The coalescing rule never looks at
the value, so the `f64` fractions are not needed there.

## Model

| member | source | states |
|---|---|---|
| Coalescing.LastReceived | src/main.rs:63-68 | `filter_map(..).last()` over the drain slots is `None` exactly when every slot's `try_recv` came back empty |
| Coalescing.LastReceivedIsLastDelivery | src/main.rs:63-68 | when some slot received a value, `LastReceived` is the value of a slot after which no slot received anything |
| Coalescing.LastReceivedIsLastValue | src/main.rs:63-68 | `LastReceived` is the last element of the values received in order, so the most recent in FIFO order |
| Coalescing.Settle | src/main.rs:62-74 | empty second read gives `v`; a second value with an all-empty drain gives `x` (`v` is dropped); otherwise the value of the last slot that received one |
| Coalescing.SettleIsLastReceived | src/main.rs:61-74 | in every case the settled value is the last value the cycle received |
| Coalescing.Drain | src/main.rs:63-68 | the drain phase has one outcome per slot; the values it received followed by what stays queued are exactly the queue followed by everything sent during the slots |
| Coalescing.SendingSlotIsRead | src/main.rs:63-68 | an empty read does not end the phase: any slot in which a value was sent ends with a successful read |
| Coalescing.EmptyReadMeansDrained | src/main.rs:63-68 | a slot reads nothing only when nothing is waiting: by then the earlier slots have received, in order, everything queued or sent up to that slot |
| Coalescing.SparseDrainReadsAll | src/main.rs:63-68 | on an empty queue, with at most one value sent per slot, the drain phase receives every value sent and leaves nothing queued |
| Coalescing.CycleOf | src/main.rs:60-74 | a cycle receives 1 to 12 values; what it received followed by what it leaves equals the queue followed by the drain-slot arrivals; it settles on the last value received |
| Coalescing.CycleConserves | src/main.rs:61-68 | a cycle with a drain phase loses and invents no value: received plus remaining equals queue plus everything sent during the slots |
| Coalescing.LoneValueSettles | src/main.rs:61-74 | a lone value settles at once: the cycle receives only it and leaves the queue empty |
| Coalescing.QuietDrainSettlesOnSecond | src/main.rs:62-74 | with `v`, `x` queued and nothing sent in any slot, the settled value is `x` and `v` is discarded |
| Coalescing.SettledWasSent | src/main.rs:61-74 | the settled value was sent, either queued or sent during a slot; it is never synthesized |
| Coalescing.CycleTakesPrefix | src/main.rs:61-68 | a cycle takes a prefix of at most 12 of the values sent, settles on the last of them and leaves the rest queued in order |
| Coalescing.LongBurstIsCut | src/main.rs:63-68 | when every slot receives a value the cycle takes exactly 12 values, settles on the 12th and leaves every later value queued in order for the next cycle |
| Coalescing.BurstSettlesOnLast | src/main.rs:60-74 | a burst that fits the window (two queued values, then at most one per slot) is received whole, leaves nothing queued and settles on its last value |
| Coalescing.BurstExample | src/main.rs:60-74 | readings 10 and 32 queued, 55 and 78 sent in the first two slots, then quiet: the settled value is 78 |
| Channels.Channel.Send | src/main.rs:157 | `send` appends the reading behind everything already queued |
| Channels.Channel.Recv | src/main.rs:61 | `recv` returns the head of the queue and removes it |
| Channels.Channel.TryRecv | src/main.rs:62-66 | `try_recv` returns and removes the head, or reports nothing and leaves an empty queue unchanged |
| Daemon.DrainPhase | src/main.rs:63-68 | the 10-slot loop returns `LastReceived` of the drain outcomes and leaves the queue the pure `Drain` leaves |
| Daemon.RunCycle | src/main.rs:60-74 | one loop cycle on the channel returns the settled value of `CycleOf` and leaves its remaining queue |
| Daemon.Run | src/main.rs:60-79 | over a run of bursts the loop settles at most one value per burst; what it received followed by what is left queued is exactly the initial queue followed by everything the producer sent; every settled value is one it received |
| Daemon.BurstConserves | src/main.rs:60-74 | one burst loses and invents no value: its cycle's received values, then the rest of the run, equal the queue followed by everything sent |
| Daemon.RunNeverSynthesizes | src/main.rs:60-79 | the values settled over a run all come from the initial queue or from what the producer sent |
| Daemon.ServeBurst | src/main.rs:60-79 | one burst on the channel settles the value `CycleOf` settles when the consumer had something to receive, nothing otherwise, and leaves the queue `After` describes |
| Daemon.Serve | src/main.rs:60-79 | the loop builds exactly one notification per cycle, whose body formats that cycle's settled value, and leaves the queue `Run` leaves |
| Options.Option.Or | src/main.rs:69 | `Option::or`: this value when there is one, otherwise the other |
| Options.Option.UnwrapOr | src/main.rs:74 | `Option::unwrap_or`: the carried value, or the default for `None` |
| Options.Somes | src/main.rs:64-67 | `filter_map` over options keeps at most as many values as there were reads, and none exactly when every read was empty |
| Options.SomesMembers | src/main.rs:64-67 | `filter_map` keeps every carried value and invents none |
| Notifier.Body | src/main.rs:75 | the body starts with the message, then a space, one to three digits and `%` |
| Notifier.Decimal | src/main.rs:75 | the decimal text of a percentage is non-empty, all digits, without a leading zero, and at most three digits for a `u8` |
| Notifier.DecimalRoundTrip | src/main.rs:75 | reading the digits of `Decimal(n)` back gives `n` |
| Notifier.BodyRoundTrip | src/main.rs:75 | the body `message + " " + percent + "%"` parses back to exactly that percentage |
| Notifier.BodyInjective | src/main.rs:75 | different percentages give different bodies |
| Notifier.Compose | src/main.rs:89-107 | every notification has low urgency, id 696969 and app name "Blight notify", plus the given title, body and timeout, and the given icon or an automatic one |
| Paths.FileNameCases | src/main.rs:154 | `Path::file_name` is `None` for the empty path, the root and a path ending in `..`, and the final name of a path ending in one |
| Paths.Push | src/main.rs:118 | pushing a name keeps the path as a prefix and makes the name the new file name |
| Paths.SetFileName | src/main.rs:154 | `set_file_name` makes `name` the file name and keeps the parent directory, or pushes `name` when there was no file name |
| Paths.SetFileNameIdempotent | src/main.rs:154 | setting the same file name twice is the same as setting it once |
| Paths.WatchPath | src/main.rs:116-119 | a watched path is the device entry with `brightness` appended as a new last component |
| Paths.MaxBrightnessPath | src/main.rs:152-154 | the handler's second path has file name `max_brightness` |
| Paths.MaxBrightnessOfWatched | src/main.rs:152-154 | for a watched path the handler reads `max_brightness` in the same device directory |
| Watching.BrightnessPaths | src/main.rs:113-121 | one watched path per readable directory entry, in listing order, each being `/sys/class/backlight/<entry>/brightness` |
| Watching.WatchedDeviceMaximum | src/main.rs:113-154 | for every path `watch` registers, the handler reads `/sys/class/backlight/<entry>/max_brightness` |
| Watching.FirstRefused | src/main.rs:123-126 | the index of the first path the watcher refuses; every earlier path is accepted |
| Watching.Watcher.Watch | src/main.rs:124 | `watch` succeeds exactly for paths the watcher accepts and records only those |
| Watching.RegisterAll | src/main.rs:123-127 | paths are registered in order up to the first refusal, whose error is returned; otherwise success |
| Watching.WatchDevices | src/main.rs:112-128 | an unreadable backlight directory is an error with nothing registered; otherwise the device paths are registered as `RegisterAll` states |
| Watching.HandleEvent | src/main.rs:142-158 | an `Err` event sends nothing and an empty path list is an error; when the last path and the `max_brightness` file beside it are both readable the result is the reading of those two files, and only from them; an unreadable-file error names one of those two files |
| Watching.OnlyLastPathMatters | src/main.rs:151-152 | paths before the last one in an event do not change the outcome |
| Watching.HandlerReadsTwoFiles | src/main.rs:152-155 | the outcome depends only on the changed file and its `max_brightness` sibling |
| Watching.Handle | src/main.rs:142-158 | the handler returns `HandleEvent`'s outcome and sends exactly one reading when that outcome is a reading, nothing otherwise |

## Left out

- Command-line parsing with `argh` (src/main.rs:14-51, 54): external glue. The options reach `Serve` as a `Config`, and their default values are not modelled.
- Logging (`init_logging`, `info!`, `error!`; src/main.rs:55-57, 77, 82-87, 125): global I/O configuration with no effect on behaviour.
- Showing the notification (`notif.show()`, src/main.rs:108): a foreign call. `Compose` records the fields that are set. A failed dispatch is only logged, so `Serve` ignores it.
- Building the `PollWatcher` (src/main.rs:130-140) and its polling with content comparison: the library runs these on its own thread. `Watcher` keeps only the list of watched paths. Which paths it refuses is an input.
- Time. The 150 ms sleeps and the blocking `recv` are not modelled. What the producer sends during drain slot `i` is an input. `Channel.Recv` requires a queued value: the consumer waits until one is there. When a cycle runs no drain phase, its burst's slot values are queued after the cycle for the next one. So a `recv` that would wake on such a value in the meantime is not modelled.
- Thread interleaving between several handler invocations: the order in which their sends reach the channel is an input.
- Channel disconnection. The `?` on `recv` (src/main.rs:61) and the `unwrap` on `send` (src/main.rs:157) cannot fail while the daemon runs, because both ends live as long as the loop.
- Floating point. The handler sends the two numbers it read (`Level`), and the quotient `b / max` (src/main.rs:156) is not computed. The cast `(fval * 100.) as u8` (src/main.rs:75) is the function parameter `percent` of `Serve`. Its saturation and truncation are not modelled.
- Paths are sequences of normalized components (`Path::components`): `"/"` only first, no `"."` and no empty component. `FileName` and `SetFileName` are stated on that form only.
- Reading and parsing the files (`read_to_string`, `trim`, `parse`; src/main.rs:143-149): `Files` maps each readable path to its parsed number.
- Panics. The model turns each `unwrap` into an error result and carries on. The source instead:
  - panics on the main thread when `read_dir` fails (src/main.rs:114), which ends the whole process before any path is watched; the model returns `BacklightDirUnreadable`.
  - panics on the watcher's polling thread when `pop` finds no path (src/main.rs:152) or a file cannot be read or parsed (src/main.rs:145, 148). That unwinds the thread that runs the handler, so unless the library recovers, no later change is reported. The model returns `NoPath` or `Unreadable` for that one event, sends nothing, and the next event is handled as usual.
- Daemon.Serve: the source loop never ends. The model runs it over a finite sequence of bursts.
