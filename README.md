# dlog in Dafny

A model of `dlog.h`, a single-header C++ logging facility, and proofs about it.
The header describes a level-gated logging pipeline with three parts:

- **Process-wide slot.** It holds at most one live `Frontend`. Construction claims
  the slot with a compare-and-swap and throws when the slot is taken.
  Destruction empties it.
- **The Frontend.** It holds:
  - a mutable threshold `logLevel`, which starts at `DDEBUG`;
  - an optional `formatter`;
  - a level-to-label function, `logLevelFormatter`;
  - a public, assignable line terminator `newLine`, which starts as `"\n"`;
  - an ordered list of backends that `+=` appends to.

  `Post` formats a message if a formatter is set. It then calls every backend in
  registration order with the message as a C string.
- **The Stream.** There is one per `DLOG(level) << …` statement. It reads the
  threshold once, when it is built. Each `<<` renders a value into its buffer
  only if that threshold is at most the statement's level. Under the same gate,
  the destructor appends the `newLine` of the Frontend in the slot and posts the
  buffer to that Frontend.

The `NDEBUG` configuration (`Frontend<…,1>`) keeps the public settings but
discards backends and values and never posts.

Files, one module each:

- `wrappers.dfy`: `Option`.
- `levels.dfy` (`Levels`): the five level constants and the default label mapping.
- `text.dfy` (`Text`): integer digits in base 10 and 16 with their parsers,
  left padding, and the cut a C string makes at its first NUL.
- `stringify.dfy` (`Stringify`): the `StringifyBuiltInType` overloads, as a
  function of the value and of the stream's base flag.
- `dispatch.dfy` (`Dispatch`): the `Frontend` class, `Post`, and the instance
  slot as a `Registry` class.
- `streams.dfy` (`Streams`): the `Stream` class and a whole log statement.
- `disabled.dfy` (`Disabled`): the `NDEBUG` configuration.

Modelling choices:

- **Backends** are ids. Their calls are recorded in a ghost `trace` of
  `(backend, text)` deliveries.
- **The formatter** is an `Option` of a function `(label function, message,
  level) -> string`. The label function is modelled as the text it writes for a
  level.
- **Stream state.** The stream's `hex`/`uppercase` flags are state: once a
  pointer has been written, later integers in the same statement come out in
  upper-case hexadecimal. In that mode an integer is written as its unsigned
  reading at its type's width, which is why `Value.Integer` carries the width.
- **Backend text.** Backends receive `message.c_str()`. What they get is
  therefore the final text up to its first NUL (`Text.CStr`). The same cut
  applies to a `std::string` argument, which is written through `c_str()`. A
  `std::string_view` is written whole.
- **Opaque parts.** The digits written for a pointer and the application's
  custom stringifier are opaque functions, bundled as `Stringify.Hooks`.

Facts of this header that the model keeps, where other versions of dlog differ:

- The level constants are 1000, 2000, 5000, 7000 and 9000.
- The labels are DBG, WRN, ERR, FAT and CRT.
- Backends take only the text. There is no category label.
- No level terminates the process.
- A pointer is padded to `sizeof(void*)` characters, not to twice that.

## Model

| member | source | states |
|---|---|---|
| `Levels.NamedLevelsStrictlyIncreasing` | dlog.h:38-42 | DDEBUG < DWARNING < DERROR < DFATAL < DCRITICAL |
| `Levels.LevelLabel` | dlog.h:117-127 | the default label is non-empty exactly for the five named levels, and then three letters long |
| `Levels.LabelRoundTrip` | dlog.h:117-127 | a label reads back to its level iff the level is named, and a label that reads back to a level is that level's label |
| `Levels.LabelsDistinct` | dlog.h:121-125 | distinct levels never share a non-empty label |
| `Text.NatToDigits` | dlog.h:70-71 | integer digits are digits of the radix with no leading zero |
| `Text.DigitsRoundTrip` | dlog.h:70-71 | the digits of n read back to n in any radix from 2 to 16 |
| `Text.IntToDecimal` | dlog.h:70 | the default decimal conversion of an integer reads back to that integer |
| `Text.PadLeft` | dlog.h:71 | `setw`/`setfill` put fill characters on the left and keep the text at the right end of the field |
| `Text.CStr` | dlog.h:77 | the C-string view of a text is its longest prefix that has no NUL |
| `Text.CStrOfPlainText` | dlog.h:149 | text without NUL passes through `c_str()` unchanged, and the cut is idempotent |
| `Stringify.Render` | dlog.h:67-78 | every value keeps the stream's base except a pointer, which leaves the stream in hexadecimal mode |
| `Stringify.RenderAsWritten` | dlog.h:67-76 | the overloads as written agree with `Render` on every value except `char*` |
| `Stringify.CharArrayAsWrittenIsNotVerbatim` | dlog.h:71-76 | as written, a `char*` is never rendered as its characters and always starts with "0x" |
| `Stringify.CharArrayHiAsWritten` | dlog.h:71-76 | as written, a buffer holding "hi" is logged as "0x000000hi"; corrected, as "hi" |
| `Stringify.RenderVerbatim` | dlog.h:75-78 | bool renders as "true"/"false"; char strings, `std::string` and `string_view` render verbatim; none changes the base |
| `Stringify.StdStringStopsAtNul` | dlog.h:77-78 | a `std::string` holding a NUL is cut short while a `string_view` is written whole |
| `Stringify.IntegerText` | dlog.h:70-71 | in decimal mode an integer is written as text that reads back to it; in hexadecimal mode, as the hex digits of its unsigned reading at its width |
| `Stringify.HexIntegerReadsBack` | dlog.h:70-71 | after a pointer, an integer renders as the hex digits of its two's-complement reading at its width |
| `Stringify.PointerPrefix` | dlog.h:71 | a pointer renders with the "0x" prefix and switches the stream to hexadecimal |
| `Stringify.RenderAll` | dlog.h:101-106 | a chain of `<<` leaves the stream in hexadecimal exactly when it began so or contains a pointer |
| `Stringify.RenderAllSplit` | dlog.h:101-106 | rendering a chain is rendering its halves in turn, with the flags carried across |
| `Dispatch.FinalText` | dlog.h:146 | with no formatter the message passes through unchanged; with one, the text is what it returns for the Frontend's label function, message and level |
| `Dispatch.Posted` | dlog.h:146-149 | one post makes one call per registered entry, the k-th to the k-th entry, each with the final text cut at its first NUL |
| `Dispatch.DeliveriesInOrder` | dlog.h:148-149 | one post makes one call per registered entry, and the k-th call goes to the k-th entry with the same text |
| `Dispatch.CallsPerBackend` | dlog.h:137-149 | a backend registered n times receives the text n times per post |
| `Dispatch.Frontend.constructor` | dlog.h:87-127 | a new Frontend has threshold DDEBUG, no formatter, the default labels, `newLine` "\n" and no backends |
| `Dispatch.Frontend.AddBackend` | dlog.h:137 | `+=` appends exactly one entry and keeps earlier entries unchanged |
| `Dispatch.Frontend.Post` | dlog.h:144-150 | the backend calls are the formatted (or raw) text, cut at its first NUL, sent to each backend in order |
| `Dispatch.Registry.constructor` | dlog.h:143 | the slot starts empty |
| `Dispatch.Registry.Construct` | dlog.h:129-134 | construction succeeds iff the slot is empty; on failure it throws and the slot keeps its instance |
| `Dispatch.Registry.Destroy` | dlog.h:136 | destruction empties the slot |
| `Dispatch.AtMostOneLive` | dlog.h:129-136 | at most one Frontend is live at any time |
| `Dispatch.Lifecycle` | dlog.h:129-136 | a second construction throws `AlreadyInitialized` and the slot still holds the first instance; after destruction a new, different instance is constructed |
| `Streams.StatementMessage` | dlog.h:87-106 | a statement posts iff its snapshot threshold is at most its level, and then its message is the rendered values followed by the C string `newLine` |
| `Streams.Stream.constructor` | dlog.h:90-111 | a stream starts empty, in decimal mode, with the Frontend's current threshold as its snapshot |
| `Streams.Stream.Append` | dlog.h:101-106 | when enabled, the buffer grows by the value's rendering; when suppressed, the buffer and flags are unchanged and nothing is stringified |
| `Streams.Stream.Close` | dlog.h:91-99 | when enabled, the slot's Frontend's `newLine` is appended and the buffer is posted at the statement's level to that Frontend; when suppressed, no backend is called |
| `Streams.Statement` | dlog.h:87-112 | the backend calls of a whole statement are those of its rendered values plus `newLine` when the threshold is at most its level, and none otherwise |
| `Streams.ThresholdChangeMidStatement` | dlog.h:93-110 | changing `logLevel` after a stream is built does not change whether, or what, it posts |
| `Disabled.Frontend.constructor` | dlog.h:156-158 | the disabled Frontend has threshold DDEBUG and neither formatter nor label function |
| `Disabled.Frontend.AddBackend` | dlog.h:169 | `+=` stores nothing |
| `Disabled.Stream.Append` | dlog.h:164 | `<<` discards the value |
| `Disabled.Stream.Close` | dlog.h:163 | the destructor posts nothing |
| `Disabled.Statement` | dlog.h:160-165 | a whole statement leaves the Frontend unchanged and posts nothing |

## Findings

| source | as written | input that shows it | evidently intended | confidence | as-written member | corrected member |
|---|---|---|---|---|---|---|
| dlog.h:67-76 | A non-const `char*` matches the generic template exactly. The `const TCHARTYPE*` overload needs a qualification conversion, so the template wins. The `is_pointer` branch then writes "0x" and streams the pointer as a C string, right-aligned in a field of `sizeof(void*)` characters filled with '0'. It also leaves the stream in hexadecimal mode. | `char buf[] = "hi"; DLOG(DWARNING) << buf;` logs "0x000000hi" on a 64-bit target | "hi", as for a `const char*` | medium (C++ overload ranking; not executed) | `Stringify.CharArrayHiAsWritten` | `Stringify.RenderVerbatim` |

`Stringify.RenderAsWritten` is the as-written rendering. `Stringify.Render` is the
corrected one, which the `Stream` model uses.

## Left out

- Concurrency. The compare-and-swap and the atomic store on the slot are modelled
  as a sequential cell. `std::scoped_lock(m_backendMutex);` declares a local
  variable and locks nothing, so it is not modelled.
- Floating-point values. Floats and doubles go through the fundamental-type
  branch and are not part of `Value`.
- Stringify.PointerPrefix: states only the "0x" prefix. The digits come from the
  implementation-defined `operator<<(const void*)`, which is the opaque
  `Hooks.pointerDigits`. The model assumes a 64-bit target (`PointerSize` = 8).
- Pointers to `signed char` or `unsigned char` are written as strings by the
  standard library and are not modelled separately. Every other pointer is
  `Value.Pointer`.
- The `::dlogStringifyCustomType` hook is the opaque `Hooks.custom`. The model
  assumes it writes text and does not change the stream's flags.
- `DLOG_CHARTYPE` and `DLOG_ALLOCATOR`. Text is narrow `char` with the default
  allocator. Wide characters are not modelled.
- Integer widths. `Value.Integer` carries its type's width because the width of
  `long` is platform-defined.
- Empty function objects. Calling an empty backend `std::function` added with
  `+=` throws `std::bad_function_call`, which ends the `noexcept` `Post` with
  `std::terminate`; so does a throwing formatter. Backends are ids that always
  accept the call, and a formatter is either absent or a total function.
  `Post` never calls `logLevelFormatter` itself; it only hands it to the
  formatter, so an empty one matters only to a formatter that calls it. It is
  modelled as a total function.
- A null `newLine`. Streaming a null `const char*` is undefined behaviour, so
  `newLine` is modelled as the characters it points to (`Text.CStr` of a text).
- Streams.Stream.Append: uses the corrected `Stringify.Render`, so a non-const
  `char*` is appended as its characters. As written, it is appended as "0x"
  followed by its text padded to 8 characters with '0', and it leaves the stream
  in hexadecimal mode (see Findings).
- Streams.Statement: posts the corrected rendering. As written, a statement that
  streams a non-const `char*` posts the as-written text of the Findings row, and
  the integers after it come out in hexadecimal.
- Stringify.RenderAll: chains the corrected `Render`, so "hexadecimal at the end
  iff it began so or holds a pointer" counts only `Value.Pointer`. As written, a
  non-const `char*` switches to hexadecimal too.
- Missing Frontend. A Stream needs a Frontend in the slot when it is built. An
  enabled Stream also needs one when it closes, because the header dereferences
  the slot at both points. It posts to whichever Frontend the slot holds at
  close time.
- Category labels and termination on fatal levels are not in this header, so
  they are not modelled.
- The example formatters (`simple_formatter.h`, `elapsed_time_formatter.h`)
  read the wall clock and a monotonic clock. They are instances of the opaque
  formatter. The Win32 example program only wires I/O backends.
