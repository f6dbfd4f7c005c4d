# Process analyzer UI logic, modelled in Dafny

The repository is a live system monitor. A Node server polls host metrics once a second and
broadcasts them to React pages. The server is I/O around a third-party metrics library. The
pieces of pure, sequential logic all sit in the front end, and this project models them:

- **Process chat assistant** (`ProcessChatbot.tsx`). The question is lower-cased and routed
  by substring tests, tried in a fixed order: "cpu"; "memory" or "ram"; "process" together
  with "most"; "help" or "what"; otherwise a fallback. The routed answer is built from the
  latest system data: a three-band load verdict, a used-memory percentage, or the three
  processes with the most CPU. Each non-blank submission appends a user message and a bot
  message to the conversation and clears the text box.
- **CPU history chart** (`Dashboard.tsx`). A 30-slot window of time labels and CPU readings.
  Every stats message drops the oldest slot and appends the newest.
- **Process search** (`ProcessList.tsx`). A case-insensitive substring filter over the latest
  process table, which each stats message replaces wholesale.

Modules, one per concern:

| file | module | contents |
|---|---|---|
| `text.dfy` | `Text` | ASCII `toLowerCase`, `includes`, and `trim` with ECMAScript whitespace |
| `processes.dfy` | `Processes` | the process record |
| `process_list.dfy` | `ProcessList` | search filter, page state, filter lemmas |
| `top_processes.dfy` | `TopProcesses` | stable descending sort by CPU, top three |
| `chatbot.dfy` | `Chatbot` | router, load bands, memory percentage, answers, conversation |
| `cpu_history.dfy` | `CpuHistory` | the chart window, its updates and the k-update theorem |

Modelling choices:

- Percentages and byte counts are `real`, because only comparisons and ratios matter.
- `used / total * 100` with `total == 0` yields NaN or an infinity in JavaScript. The model
  keeps this case: `JsNumber` records those values, so no `requires total > 0` is needed.
- JavaScript's `Array.prototype.sort` is stable, so the top-three answer uses a stable
  insertion sort. Stability is proved class by class: the processes with equal CPU leave the
  sort in their input order.
- `String.prototype.trim` strips the ECMAScript WhiteSpace and LineTerminator code points.
  `Text.JsWhitespace` lists them.
- The chart's time labels come from the clock, so each reading carries its label as an input
  (`Reading.time`), an opaque string.
- The chart has one dataset (`datasets[0]`). Its `label` field is called `seriesLabel` here,
  because `label` is a Dafny keyword.
- `ProcessList.tsx:20` reads `data.processes.list`, while `ProcessChatbot.tsx:57` spreads
  `systemData.processes` as an array. Both models take a plain sequence of processes.

## Model

| member | source | states |
|---|---|---|
| `Text.ToLowerIdempotent` | src/components/ProcessChatbot.tsx:40 | lower-casing an already lower-cased string changes nothing |
| `Text.IncludesIffOccurs` | src/components/ProcessChatbot.tsx:42 | `includes` is true exactly when some position of the string starts a copy of the keyword |
| `Text.TrimSpec` | src/components/ProcessChatbot.tsx:77 | `trim` cuts only a whitespace prefix and a whitespace suffix; the result neither starts nor ends with whitespace; it is empty exactly when the input is all whitespace |
| `Text.BlankIffAllWhitespace` | src/components/ProcessChatbot.tsx:77 | the send guard rejects an input exactly when every character of it is whitespace, the empty input included |
| `Chatbot.Route` | src/components/ProcessChatbot.tsx:40-72 | each query gets exactly one of five topics; each topic holds exactly when its keywords are present and no earlier rule's keywords are |
| `Chatbot.RouteSeesOnlyLowerCase` | src/components/ProcessChatbot.tsx:40 | queries with the same lower-cased form get the same topic; a query and its lower-cased form get the same topic |
| `Chatbot.ProgramMeansMemory` | src/components/ProcessChatbot.tsx:50 | "ram" also matches inside a word: "Program" is routed to the memory answer |
| `Chatbot.CpuWinsOverEverything` | src/components/ProcessChatbot.tsx:42-72 | every query mentioning CPU gets the CPU answer, whatever other keywords it names, because the CPU test comes first |
| `Chatbot.RamAndCpuQueryGetsCpu` | src/components/ProcessChatbot.tsx:42-50 | the query "RAM use, CPU?" gets the CPU answer |
| `Chatbot.LoadBand` | src/components/ProcessChatbot.tsx:44-46 | heavy above 80, moderate above 50 up to and including 80, smooth at 50 and below |
| `Chatbot.LoadBandMonotone` | src/components/ProcessChatbot.tsx:44-46 | a higher CPU reading never gets a lighter band |
| `Chatbot.UsedPercentage` | src/components/ProcessChatbot.tsx:51 | the percentage times the total equals the used amount times 100 when the total is non-zero; a zero total gives NaN for 0/0 and a signed infinity otherwise |
| `Chatbot.HalfMemoryIsFifty` | src/components/ProcessChatbot.tsx:51 | 8388608000 used of 16777216000 bytes is 50 percent |
| `Chatbot.Analyze` | src/components/ProcessChatbot.tsx:39-73 | one answer per query, of the routed topic; the CPU answer carries the reading and its band; the memory answer carries the percentage and free bytes; the top answer is the top-three list of the current processes (`TopProcesses.Top`) |
| `TopProcesses.SortByCpuDesc` | src/components/ProcessChatbot.tsx:57 | the sorted copy is a permutation of the input with CPU non-increasing |
| `TopProcesses.SortStable` | src/components/ProcessChatbot.tsx:57 | processes with equal CPU keep their input order through the sort |
| `TopProcesses.Top` | src/components/ProcessChatbot.tsx:57 | lists min(3, n) processes in non-increasing CPU order; they are drawn from the input, and no process left out has more CPU than a listed one |
| `TopProcesses.TopTiesByInputOrder` | src/components/ProcessChatbot.tsx:57 | among processes with equal CPU, the listed ones are the earliest in the input |
| `Chatbot.Initial` | src/components/ProcessChatbot.tsx:21-28 | the conversation starts as the bot greeting alone with an empty text box, and is well formed |
| `Chatbot.EditInput` | src/components/ProcessChatbot.tsx:148 | typing replaces the text box contents and leaves the messages alone |
| `Chatbot.Submit` | src/components/ProcessChatbot.tsx:75-93 | blank input changes nothing; otherwise earlier messages are kept and exactly two are appended: the user's text as typed, then the bot's answer to it; the text box is cleared |
| `Chatbot.SubmitPreservesWellFormed` | src/components/ProcessChatbot.tsx:77-91 | after a submission the conversation is still the greeting followed by question/answer pairs |
| `Chatbot.RunKeepsWellFormed` | src/components/ProcessChatbot.tsx:21-92 | any sequence of keystrokes and submissions keeps every earlier message in place; the conversation stays the greeting followed by pairs, each a non-blank question and an answer of its topic |
| `CpuHistory.Initial` | src/pages/Dashboard.tsx:33-45 | the chart starts with 30 empty labels and 30 zero readings, the series label "CPU Usage %", colours #64FFDA and rgba(100, 255, 218, 0.1), tension 0.4 and fill on |
| `CpuHistory.Shift` | src/pages/Dashboard.tsx:54 | a shift keeps a non-empty window's length, drops the oldest element, moves the rest down one slot and puts the new element last |
| `CpuHistory.Update` | src/pages/Dashboard.tsx:53-59 | labels and data shift together; the new reading and label are last; element i is the old element i+1; a full window stays full; label, colours, tension and fill are unchanged |
| `CpuHistory.FeedKeepsAlignment` | src/pages/Dashboard.tsx:54-57 | after any number of updates, labels and data have equal lengths and a full window stays full |
| `CpuHistory.ShiftAllIsSuffix` | src/pages/Dashboard.tsx:57 | a non-empty window with xs shifted in holds the last len(w) elements of the old window followed by xs |
| `CpuHistory.FeedFromInitial` | src/pages/Dashboard.tsx:33-59 | after k ≥ 30 messages the data are the last 30 readings in arrival order; for k < 30 they are 30−k zeros followed by all k readings; labels behave the same way and the line settings are unchanged |
| `ProcessList.Filter` | src/pages/ProcessList.tsx:28-30 | the result keeps the input's order: it is the input with some entries deleted |
| `ProcessList.FilterSoundComplete` | src/pages/ProcessList.tsx:28-30 | a process is shown exactly when it is in the table and its lower-cased name contains the lower-cased term |
| `ProcessList.FilterKeepsOccurrences` | src/pages/ProcessList.tsx:28-30 | a matching process is shown as many times as it occurs in the table; a non-matching one never |
| `ProcessList.FilterLength` | src/pages/ProcessList.tsx:28 | the filtered list is never longer than the input |
| `ProcessList.FilterEmptyTerm` | src/pages/ProcessList.tsx:28-30 | an empty search term returns the whole list unchanged |
| `ProcessList.FilterIdempotent` | src/pages/ProcessList.tsx:28-30 | filtering the result again with the same term gives the same result |
| `ProcessList.FilterTermCaseInsensitive` | src/pages/ProcessList.tsx:29 | terms with the same lower-cased form give the same result |
| `ProcessList.Initial` | src/pages/ProcessList.tsx:13-14 | the page starts with an empty table and an empty term, so it shows no rows |
| `ProcessList.OnStats` | src/pages/ProcessList.tsx:19-21 | a stats message replaces the table with the new list, wholesale; the term is unchanged; the visible rows are the new list filtered by it |
| `ProcessList.OnSearch` | src/pages/ProcessList.tsx:40 | typing stores the new term, keeps the table, and shows the table filtered by the new term |
| `ProcessList.OnStatsForgetsHistory` | src/pages/ProcessList.tsx:19-21 | the rows visible after a stats message depend only on that message and the term, not on earlier tables |

## Left out

- `server/index.js`: the one-second polling timer, the socket.io broadcast and the
  `systeminformation` calls. They are I/O around a library whose code is not part of this model.
- Socket connect and disconnect, React effects and state hooks, scrolling, animation delays and
  JSX rendering. These are UI plumbing with no logic to verify.
- Reply wording. `toFixed` formatting, the GB conversion of free memory and the canned sentences
  are presentation. Each answer carries the values its text is built from.
- The dashboard's metric cards and the `setSystemStats` replacement. The cards are
  floating-point presentation, and they divide by zero on the all-zero initial state.
- Chat-message timestamps (`new Date()` at `ProcessChatbot.tsx:25`, `:82` and `:88`) come from the
  clock and are only displayed, so `Message` has no timestamp. The chart's `toLocaleTimeString`
  labels depend on the clock and the locale, so they enter as opaque `Reading.time` strings.
- `src/pages/AIReports.tsx`, `src/components/Navbar.tsx`, `src/App.tsx` and
  `tailwind.config.js`. They hold static content, routing and styling only.
- Text.ToLowerIdempotent: lower-casing is modelled for ASCII letters only. Locale-dependent and
  non-ASCII case mappings of `toLowerCase` are not modelled.
- Chatbot.UsedPercentage: real arithmetic stands in for IEEE 754 doubles, so rounding and
  overflow are not modelled. The special values from a zero total are modelled.
- Top-three immutability: the source sorts a copy (`[...processes]`) so the input is not
  reordered. Dafny sequences are values, so this holds by construction and needs no contract.
