# Debug helpers of the query debug example, in Dafny

The debug example around the client-side data-fetching library is almost all UI.
Three small in-memory structures in it hold state and have exact behaviour. This
project models those three and proves properties of them:

- **QueryPerformanceMonitor** (`debug-example/src/utils/debugHelpers.ts`): a
  singleton table from `queryKey + "-" + operation` to the timing samples
  recorded under that key. `startTiming` makes sure the key exists. It returns a
  handle that closes over one start time. Every `end()` on the handle appends one
  sample. `getMetrics(prefix)` filters keys by string prefix, and `clearMetrics`
  empties the table. Module `PerformanceMonitor`: class `QueryPerformanceMonitor`
  holds a `map<string, seq<Sample>>`, and class `TimingHandle` is the closure.
- **QueryStateTracker** (same file): a singleton table from the JSON text of a
  query key to the history of its states. A state is appended only when it
  differs from the last one recorded, so a history lists transitions, not polls.
  Module `StateTracker`: class `QueryStateTracker<S>`, the pure update `Track`,
  and a reference definition `Compress` (drop repeated neighbours) that the
  recorded history is proved equal to. Module `JsonString` models
  `JSON.stringify` of a string key and proves it injective, so two different
  keys never share a history.
- **The log buffer of DebugControlPanel**
  (`debug-example/src/components/DebugControlPanel.tsx`): the `console.log` and
  `console.error` interceptors format their arguments into one line. They append
  the line to the panel's buffer, keep the newest 50 lines and forward the
  arguments to the saved original sink. Module `LogBuffer` holds the pure part
  (formatting, `[...prev, entry].slice(-maxLogs)`). Module `DebugControlPanel`
  holds the stateful part: class `Panel` with the buffer, the expand flag and the
  saved sinks, and class `Console` with the two patched entry points.

Clock readings (`performance.now()`, `Date.now()`, ISO stamps) are integer
millisecond parameters. The locale time of day in a log line is an opaque string
parameter. The two `static instance` slots are registry objects
(`MonitorRegistry`, `TrackerRegistry`) whose `GetInstance` creates on first use.

Three behaviours of the code are easy to miss, and the model states them:

- The log interceptor is not exception-safe. `JSON.stringify` of a cyclic
  object throws a TypeError out of `logInterceptor`
  (`DebugControlPanel.tsx:16-18`). Then no line is buffered and nothing is
  forwarded. `FormatMessage` returns `Failure`, and `Panel.Intercept` leaves
  both the buffer and the console untouched.
- `end()` does `this.metrics.get(key)!.push(...)` (`debugHelpers.ts:70`). If
  `clearMetrics` ran after `startTiming`, the list is gone and `end()` throws.
  `TimingHandle.End` returns `Failure(MissingMetricsList(key))` and leaves the
  table unchanged.
- `getMetrics` matches raw string prefixes. `getMetrics("user")` also returns the
  keys of a query named `"users"`. The composite key is not injective either:
  `("a-b", "c")` and `("a", "b-c")` share one list. Both are stated as lemmas.

## Model

| member | source | states |
|---|---|---|
| JsonString.EscapeChar | debug-example/src/utils/debugHelpers.ts:115 | one character of a JSON string literal: a backslash escape exactly for '"', '\\' and the control characters, otherwise the character itself |
| JsonString.Escape | debug-example/src/utils/debugHelpers.ts:115 | the escaped body of a string literal is at least as long as the string and at most six times as long; a string with nothing to escape is its own body |
| JsonString.Quote | debug-example/src/utils/debugHelpers.ts:115 | the JSON text of a string key is its escaped text between double quotes |
| JsonString.EscapeInjective | debug-example/src/utils/debugHelpers.ts:115 | two strings with the same escaped text are equal (induction over the prefix-free escapes) |
| JsonString.QuoteInjective | debug-example/src/utils/debugHelpers.ts:115 | two strings with the same JSON text are equal |
| PerformanceMonitor.MetricKey | debug-example/src/utils/debugHelpers.ts:58 | the key starts with the query key, then one '-', then exactly the operation |
| PerformanceMonitor.SampleAt | debug-example/src/utils/debugHelpers.ts:66-75 | a sample keeps the handle's start and the end reading, and start + duration = end |
| PerformanceMonitor.EnsureKey | debug-example/src/utils/debugHelpers.ts:61-63 | the key exists afterwards; an existing key keeps its samples, a new one starts empty; no other key changes |
| PerformanceMonitor.Record | debug-example/src/utils/debugHelpers.ts:70-75 | one sample is appended to the key's list; the key set and every other list are unchanged |
| PerformanceMonitor.WithPrefix | debug-example/src/utils/debugHelpers.ts:83-93 | with a non-empty prefix exactly the keys starting with it, else every key; each with its unchanged list |
| PerformanceMonitor.QueryPerformanceMonitor.constructor | debug-example/src/utils/debugHelpers.ts:48 | a new monitor holds no keys |
| PerformanceMonitor.QueryPerformanceMonitor.StartTiming | debug-example/src/utils/debugHelpers.ts:57-81 | returns a fresh handle bound to this monitor, the composite key and the start time; the table becomes EnsureKey of the old table |
| PerformanceMonitor.QueryPerformanceMonitor.GetMetrics | debug-example/src/utils/debugHelpers.ts:83-94 | the loop over the entries builds exactly WithPrefix of the table |
| PerformanceMonitor.QueryPerformanceMonitor.ClearMetrics | debug-example/src/utils/debugHelpers.ts:96-99 | the table is empty afterwards |
| PerformanceMonitor.TimingHandle.constructor | debug-example/src/utils/debugHelpers.ts:65-80 | the closure captures the monitor, the key and the start time |
| PerformanceMonitor.TimingHandle.End | debug-example/src/utils/debugHelpers.ts:66-79 | with the key present: returns end - start and appends one sample to that key only; with the key cleared: fails and changes nothing |
| PerformanceMonitor.MonitorRegistry.constructor | debug-example/src/utils/debugHelpers.ts:47 | the static slot starts empty |
| PerformanceMonitor.MonitorRegistry.GetInstance | debug-example/src/utils/debugHelpers.ts:50-55 | creates an empty monitor only when the slot is empty; otherwise returns the stored one; the slot holds the result |
| PerformanceMonitor.GetInstanceTwice | debug-example/src/utils/debugHelpers.ts:50-55 | two getInstance calls return the same object |
| PerformanceMonitor.TwoEndsShareStart | debug-example/src/utils/debugHelpers.ts:59-79 | two end() calls on one handle append two samples in order, both with the handle's start time; other keys unchanged |
| PerformanceMonitor.StartedKeyIsListed | debug-example/src/utils/debugHelpers.ts:57-93 | after startTiming(q, op), getMetrics(q) and getMetrics() list the key, with its existing samples kept |
| PerformanceMonitor.PrefixAlsoMatchesLongerQueryKeys | debug-example/src/utils/debugHelpers.ts:87 | for any table, after startTiming(q, op), getMetrics(p) lists the key for every non-empty prefix p of q, so getMetrics("user") also lists "users-fetch" |
| PerformanceMonitor.CompositeKeysCollide | debug-example/src/utils/debugHelpers.ts:58 | for any a, b, c the different pairs (a + "-" + b, c) and (a, b + "-" + c) map to the same key |
| PerformanceMonitor.ClearedMetricsAreEmpty | debug-example/src/utils/debugHelpers.ts:96-98 | after clearing, getMetrics returns nothing for any prefix |
| PerformanceMonitor.EndAfterClear | debug-example/src/utils/debugHelpers.ts:61-98 | end() on a handle started before clearMetrics fails and the table stays empty |
| StateTracker.NormalizeKey | debug-example/src/utils/debugHelpers.ts:115 | the normalised key is the key's JSON text, a double-quoted string |
| StateTracker.NormalizeKeyInjective | debug-example/src/utils/debugHelpers.ts:115 | different query keys have different normalised keys |
| StateTracker.HistoryOf | debug-example/src/utils/debugHelpers.ts:144 | the stored history of a known key, the empty sequence for an unknown one |
| StateTracker.Track | debug-example/src/utils/debugHelpers.ts:117-132 | appends exactly one entry iff the history is empty or its last state differs, otherwise changes nothing; old entries kept; the last state is the new one; the new entry carries the ISO stamp; its gap is 0 for a first entry, else the separate Date.now() reading minus the previous entry's stamp |
| StateTracker.TrackWellFormed | debug-example/src/utils/debugHelpers.ts:117-132 | tracking keeps a history non-empty, without equal neighbours, with first gap 0 |
| StateTracker.TrackTwiceAddsOne | debug-example/src/utils/debugHelpers.ts:124-125 | tracking an equal state a second time changes nothing |
| StateTracker.Compress | debug-example/src/utils/debugHelpers.ts:124-126 | reference definition of "transitions only": first and last values kept, no equal neighbours, never longer than the input |
| StateTracker.TrackAllRecordsTransitions | debug-example/src/utils/debugHelpers.ts:114-139 | after any run of calls on one key, the recorded states are exactly the observed states with repeated neighbours removed |
| StateTracker.TrackAllGapsNonNegative | debug-example/src/utils/debugHelpers.ts:129-131 | when no call's stamp is later than a later call's Date.now() reading, every recorded gap is non-negative and every stamp is one of the calls' stamps |
| StateTracker.ThreeChangesThreeEntries | debug-example/src/utils/debugHelpers.ts:124-132 | three changing states give three entries with gaps 0, now2 - stamp1 and now3 - stamp2 |
| StateTracker.TrackLeavesOtherKeys | debug-example/src/utils/debugHelpers.ts:115-127 | tracking one query key leaves the history of every other query key unchanged |
| StateTracker.TrackedStateIsLast | debug-example/src/utils/debugHelpers.ts:114-145 | after tracking s for q, the history getStateHistory(q) sees ends with s |
| StateTracker.QueryStateTracker.constructor | debug-example/src/utils/debugHelpers.ts:105 | a new tracker holds no histories |
| StateTracker.QueryStateTracker.TrackStateChange | debug-example/src/utils/debugHelpers.ts:114-140 | one call reads the clock twice (the stamp and the gap's reading); only the normalised key's history changes, to Track of its old history with those readings; every history stays well formed |
| StateTracker.QueryStateTracker.GetStateHistory | debug-example/src/utils/debugHelpers.ts:142-145 | same normalisation as tracking; empty for an unknown key, which is not inserted |
| StateTracker.QueryStateTracker.GetAllHistory | debug-example/src/utils/debugHelpers.ts:147-149 | every normalised key with its history |
| StateTracker.QueryStateTracker.ClearHistory | debug-example/src/utils/debugHelpers.ts:151-154 | no histories are left |
| StateTracker.TrackerRegistry.constructor | debug-example/src/utils/debugHelpers.ts:104 | the static slot starts empty |
| StateTracker.TrackerRegistry.GetInstance | debug-example/src/utils/debugHelpers.ts:107-112 | creates an empty tracker only when the slot is empty; otherwise returns the stored one |
| StateTracker.TrackSameStateTwice | debug-example/src/utils/debugHelpers.ts:124-132 | two calls with an equal state on a new key leave one entry with gap 0 |
| LogBuffer.SliceLast | debug-example/src/components/DebugControlPanel.tsx:22 | slice(-n) keeps the last min(n, length) elements; n = 0 keeps everything |
| LogBuffer.AppendBounded | debug-example/src/components/DebugControlPanel.tsx:20-23 | the entry is last; below capacity nothing is dropped; at capacity exactly the oldest line is dropped; capacity 0 keeps everything, as slice(-0) does |
| LogBuffer.AppendBoundedKeepsNewest | debug-example/src/components/DebugControlPanel.tsx:20-23 | from any buffer, the result is the last min(maxLogs, old length + 1) lines of old + [entry] |
| LogBuffer.AppendAllKeepsNewest | debug-example/src/components/DebugControlPanel.tsx:20-36 | after any run of intercepted calls the buffer is the newest maxLogs lines of everything logged, in call order |
| LogBuffer.FreshBufferHoldsLastCalls | debug-example/src/components/DebugControlPanel.tsx:20-36 | from an empty buffer, k calls leave min(maxLogs, k) lines: the last ones, in order |
| LogBuffer.AppendAllBounded | debug-example/src/components/DebugControlPanel.tsx:8-36 | a buffer within capacity stays within it over any run of calls |
| LogBuffer.ArgText | debug-example/src/components/DebugControlPanel.tsx:16-17 | an argument's text fails exactly for an object that cannot be serialised |
| LogBuffer.ArgTexts | debug-example/src/components/DebugControlPanel.tsx:16-18 | succeeds iff every argument does, with one text per argument in order |
| LogBuffer.Join | debug-example/src/components/DebugControlPanel.tsx:18 | join(' ') of no parts is empty; otherwise its length is the parts' total length plus one separator between each two, and it starts with the first part |
| LogBuffer.FormatMessage | debug-example/src/components/DebugControlPanel.tsx:16-31 | succeeds iff no argument is unserialisable; the message is the argument texts joined by single spaces |
| LogBuffer.SinglePrimitiveMessage | debug-example/src/components/DebugControlPanel.tsx:52 | a call with one string logs that string as it is |
| LogBuffer.SplitJoin | debug-example/src/components/DebugControlPanel.tsx:18 | for texts without spaces, splitting the joined message at spaces gives the texts back |
| LogBuffer.Entry | debug-example/src/components/DebugControlPanel.tsx:21-34 | a line starts with "[time] ", ends with the message, and is exactly "ERROR: " (7 characters) longer for an error |
| LogBuffer.ErrorEntryIsMarkedInfoEntry | debug-example/src/components/DebugControlPanel.tsx:21-34 | info and error lines share the time prefix; after it the error line has "ERROR: " before the same message; the two differ |
| DebugControlPanel.Panel.constructor | debug-example/src/components/DebugControlPanel.tsx:6-8 | collapsed, empty buffer, capacity 50, not intercepting |
| DebugControlPanel.Panel.ToggleExpanded | debug-example/src/components/DebugControlPanel.tsx:105 | the header click flips the display mode |
| DebugControlPanel.Panel.InstallInterceptors | debug-example/src/components/DebugControlPanel.tsx:11-42 | saves both current sinks and points log and error at the interceptors |
| DebugControlPanel.Panel.RestoreSinks | debug-example/src/components/DebugControlPanel.tsx:44-47 | log and error are exactly the saved originals again |
| DebugControlPanel.Panel.Intercept | debug-example/src/components/DebugControlPanel.tsx:15-39 | on a formattable call: the buffer becomes AppendBounded of the old one with the level's line, the unchanged arguments reach the saved sink; on a serialisation error nothing changes; the buffer stays within 50 |
| DebugControlPanel.Panel.ConsoleLog | debug-example/src/components/DebugControlPanel.tsx:25-41 | a console.log call runs the interceptor while installed, otherwise goes to the current sink with the buffer unchanged |
| DebugControlPanel.Panel.LogNotice | debug-example/src/components/DebugControlPanel.tsx:15-26 | a console.log of one string while intercepting appends "[time] " + the string to the bounded buffer and forwards it to the saved sink; otherwise the buffer is unchanged and the current sink receives it |
| DebugControlPanel.Panel.LogTwoNotices | debug-example/src/utils/debugHelpers.ts:7-42 | two console.log calls of one string each: two nested bounded appends in call order and two forwarded calls, or two forwarded calls with the buffer unchanged |
| DebugControlPanel.Panel.ClearLogs | debug-example/src/components/DebugControlPanel.tsx:50-53 | while intercepting, the buffer ends up holding exactly the "cleared" notice, which is also forwarded; otherwise it ends up empty |
| DebugControlPanel.Panel.HandleExportDebugData | debug-example/src/components/DebugControlPanel.tsx:55-61 | exports iff the global debug tools are present; then the "Debug data exported" notice that exportData logs (debugHelpers.ts:185) goes through the interceptor: buffered and forwarded to the saved sink, or only handed to the current sink when not intercepting; without the tools it only warns and neither the buffer nor the console's log calls change |
| DebugControlPanel.Panel.HandleShowDebugInstructions | debug-example/src/components/DebugControlPanel.tsx:63-69 | shows instructions iff the global debug tools are present; then addLogs' two console.log calls (heading, then code template, debugHelpers.ts:7 and 42) are buffered in that order at two times and forwarded, or only handed to the current sink when not intercepting; without the tools it only warns and nothing changes |
| DebugControlPanel.MountThenUnmount | debug-example/src/components/DebugControlPanel.tsx:11-48 | mount then unmount leaves both console sinks exactly as they were, and the buffer, the display mode and the forwarded calls unchanged |
| DebugControlPanel.ToggleTwice | debug-example/src/components/DebugControlPanel.tsx:105 | two header clicks return to the previous mode |
| DebugControlPanel.LogWhileMounted | debug-example/src/components/DebugControlPanel.tsx:15-41 | a logged line is last in the buffer, and the original sink receives the unchanged arguments |

## Left out

- Rendering and JSX of every component: UI only.
- QueryStatus.updateQueries, useDebugQuery, the retry-delay lambda, the breakpoint clipboard helper: they wrap the external query library, React hooks or clipboard I/O, none of which is part of this model.
- collectDebugData and the Blob download of exportDebugData: browser globals and file I/O. Only the notice exportDebugData then logs is modelled.
- addDebugLogsToUseBaseQuery: the code template it logs (debugHelpers.ts:9-40) is the opaque constant `InstructionsSnippet`; its text is not modelled.
- The console.warn output of the two handlers when the debug tools are absent: console.warn is not intercepted, so it never reaches the buffer and is not modelled.
- The invalidate-all and clear-cache buttons: they call the external query client, which is not part of this model.
- Real clocks and float durations: times are integer parameters, and durations are exact integer differences. trackStateChange reads the clock twice (the ISO stamp, then Date.now() for the gap); these are two independent parameters, and parsing the ISO stamp back is taken to be exact.
- The console.log lines that end(), trackStateChange and clearMetrics print: console output is not modelled outside the panel.
- JSON.stringify in general: object arguments carry their serialised text (or undefined, or a thrown TypeError) as data; tracked states are compared by value equality, standing for equality of their serialisations.
- StateTracker.QueryStateTracker.TrackStateChange: does not model non-object states (strings, numbers, undefined), for which the stored copy `{...newState}` serialises differently from the state passed, so that repeated equal states would each be recorded. Nor arrays (`{...[1, 2]}` stores `{"0": 1, "1": 2}`), null (stored as `{}`), objects with an inherited toJSON such as a Date (the copy loses it and serialises differently), or cyclic and BigInt states, whose stored copy makes `JSON.stringify(previousState.state)` (debugHelpers.ts:125) throw on the next call for that key.
- Aliasing: getMetrics, getStateHistory and getAllHistory return the live arrays in debugHelpers.ts, so later pushes show through them; the model returns values.
- React scheduling: setLogs updaters are applied in call order, as React applies functional updates; re-renders, StrictMode double effects and batching are not modelled.
- The locale time string of a log line is an opaque parameter; toLocaleTimeString is not modelled.
- Query keys containing lone UTF-16 surrogates: a Dafny char is a Unicode scalar value and cannot hold one; JSON.stringify writes such a unit as a \udxxx escape.
