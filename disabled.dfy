/** The configuration compiled with `NDEBUG` (`Frontend<…,1>` in dlog.h):
    the public settings still exist so that application code compiles, but
    registering a backend stores nothing and a statement neither renders
    nor posts. No method here has a modifies clause, so none of them can
    change any state at all. */
module Disabled {
  import opened Wrappers
  import opened Levels
  import opened Stringify
  import Dispatch

  class Frontend {
    var logLevel: int
    var formatter: Option<Dispatch.Formatter>
    /** A default-constructed, empty `std::function`. */
    var logLevelFormatter: Option<Dispatch.LevelToText>

    constructor()
      ensures logLevel == DDEBUG && formatter == None && logLevelFormatter == None
    {
      logLevel := DDEBUG;
      formatter := None;
      logLevelFormatter := None;
    }

    /** `operator+=` discards the backend. */
    method AddBackend(backend: Dispatch.BackendId)
      ensures unchanged(this)
    {
    }
  }

  /** A statement of this configuration: it keeps nothing. */
  class Stream {
    constructor(level: int)
    {
    }

    /** `operator<<` discards the value. */
    method Append(v: Value)
      ensures unchanged(this)
    {
    }

    /** The defaulted destructor posts nothing. */
    method Close()
      ensures unchanged(this)
    {
    }
  }

  /** `DLOG(level) << v1 << … << vn;` leaves the Frontend exactly as it was:
      no threshold is read, nothing is rendered and nothing is posted. */
  method Statement(frontend: Frontend, level: int, values: seq<Value>)
    ensures unchanged(frontend)
  {
    var stream := new Stream(level);
    for i := 0 to |values| {
      stream.Append(values[i]);
    }
    stream.Close();
  }
}
