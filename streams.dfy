/** The per-statement builder of the enabled configuration
    (`Frontend<…,0>::Stream` in dlog.h) and what a whole statement
    `DLOG(level) << v1 << … << vn;` does. */
module Streams {
  import opened Wrappers
  import opened Text
  import opened Stringify
  import opened Dispatch

  /** A statement is enabled when the threshold it snapshotted does not
      exceed its own level. */
  predicate Gate(threshold: int, level: int) {
    threshold <= level
  }

  /** The message a statement posts on close, if it posts at all. It posts
      iff its threshold is at most its level, and then the message is the
      rendering of its values followed by the Frontend's line terminator
      (`newLine`, as the C string it points to). */
  function StatementMessage(threshold: int, level: int, values: seq<Value>, hooks: Hooks, newLine: string): (r: Option<string>)
    ensures r.Some? <==> threshold <= level
    ensures r.Some? ==> |r.value| == |RenderAll(values, Decimal, hooks).text| + |CStr(newLine)|
    ensures r.Some? ==> r.value[..|RenderAll(values, Decimal, hooks).text|] == RenderAll(values, Decimal, hooks).text
    ensures r.Some? ==> r.value[|RenderAll(values, Decimal, hooks).text|..] == CStr(newLine)
  {
    if Gate(threshold, level) then Some(RenderAll(values, Decimal, hooks).text + CStr(newLine)) else None
  }

  /** The backend calls a statement makes on the Frontend it reaches. */
  function StatementCalls(frontend: Frontend, level: int, message: Option<string>): seq<Delivery>
    reads frontend
  {
    match message
    case None => []
    case Some(m) => Posted(frontend.backends, frontend.formatter, frontend.logLevelFormatter, m, level)
  }

  class Stream {
    const level: int
    /** The Frontend's threshold, read once when the statement began. */
    const baseLevel: int
    const hooks: Hooks
    /** The text accumulated so far (`m_out`). */
    var buf: string
    /** The base field of `m_out`'s flags. */
    var base: NumBase
    var closed: bool
    /** Every value streamed in, and those handed to stringification. */
    ghost var appended: seq<Value>
    ghost var stringified: seq<Value>
    /** The line terminator written on close, if any. */
    ghost var terminator: string

    predicate Enabled() {
      Gate(baseLevel, level)
    }

    /** Only an enabled statement stringifies, and then every value; the
        buffer is their rendering, plus the line terminator once an enabled
        statement is closed. */
    ghost predicate Valid()
      reads this
    {
      && stringified == (if Enabled() then appended else [])
      && (!(closed && Enabled()) ==> terminator == [])
      && buf == RenderAll(stringified, Decimal, hooks).text + terminator
      && base == RenderAll(stringified, Decimal, hooks).base
    }

    /** Begins a statement at `level`, snapshotting the threshold of the
        Frontend in the slot. */
    constructor(registry: Registry, level: int, hooks: Hooks)
      requires registry.instance != null
      ensures this.level == level && this.hooks == hooks
      ensures baseLevel == registry.instance.logLevel
      ensures buf == [] && base == Decimal && !closed && appended == []
      ensures Valid()
    {
      this.level := level;
      this.baseLevel := registry.instance.logLevel;
      this.hooks := hooks;
      buf := [];
      base := Decimal;
      closed := false;
      appended := [];
      stringified := [];
      terminator := [];
    }

    /** `operator<<`: an enabled statement appends the value's rendering; a
        suppressed one leaves the buffer alone and renders nothing. */
    method Append(v: Value)
      requires Valid() && !closed
      modifies this`buf, this`base, this`appended, this`stringified
      ensures Valid() && appended == old(appended) + [v]
      ensures Enabled() ==> stringified == old(stringified) + [v]
      ensures Enabled() ==> buf == old(buf) + Render(v, old(base), hooks).text
      ensures Enabled() ==> base == Render(v, old(base), hooks).base
      ensures !Enabled() ==> stringified == old(stringified) && buf == old(buf) && base == old(base)
    {
      appended := appended + [v];
      if baseLevel <= level {
        var r := Render(v, base, hooks);
        assert (stringified + [v])[..|stringified|] == stringified;
        buf := buf + r.text;
        base := r.base;
        stringified := stringified + [v];
      }
    }

    /** The destructor: an enabled statement appends the `newLine` of the
        Frontend then in the slot and posts the buffer to it at its own
        level; a suppressed one does nothing. */
    method Close(registry: Registry)
      requires Valid() && !closed
      requires Enabled() ==> registry.instance != null
      modifies this`buf, this`closed, this`terminator, (if registry.instance == null then {} else {registry.instance})`trace
      ensures Valid() && closed
      ensures Enabled() ==> buf == old(buf) + CStr(registry.instance.newLine)
      ensures Enabled() ==> registry.instance.trace == old(registry.instance.trace) + StatementCalls(registry.instance, level, Some(buf))
      ensures !Enabled() ==> buf == old(buf)
      ensures !Enabled() && registry.instance != null ==> registry.instance.trace == old(registry.instance.trace)
    {
      if baseLevel <= level {
        var frontend := registry.instance;
        var newLine := CStr(frontend.newLine);
        buf := buf + newLine;
        terminator := newLine;
        frontend.Post(buf, level);
      }
      closed := true;
    }
  }

  /** `DLOG(level) << v1 << … << vn;`: the Frontend in the slot makes exactly
      the backend calls `StatementMessage` describes for its threshold. */
  method Statement(registry: Registry, level: int, values: seq<Value>, hooks: Hooks)
    requires registry.instance != null
    modifies registry.instance`trace
    ensures var frontend := registry.instance;
            frontend.trace == old(frontend.trace)
              + StatementCalls(frontend, level, StatementMessage(frontend.logLevel, level, values, hooks, frontend.newLine))
  {
    var stream := new Stream(registry, level, hooks);
    var i := 0;
    while i < |values|
      invariant 0 <= i <= |values|
      invariant stream.Valid() && !stream.closed && stream.appended == values[..i]
      invariant stream.hooks == hooks && stream.level == level && stream.baseLevel == registry.instance.logLevel
      invariant registry.instance.trace == old(registry.instance.trace)
    {
      assert values[..i + 1] == values[..i] + [values[i]];
      stream.Append(values[i]);
      i := i + 1;
    }
    assert values[..i] == values;
    ghost var message := StatementMessage(stream.baseLevel, level, values, hooks, registry.instance.newLine);
    assert stream.Enabled() ==> stream.buf == RenderAll(values, Decimal, hooks).text;
    assert stream.Enabled() ==> message == Some(stream.buf + CStr(registry.instance.newLine));
    stream.Close(registry);
    assert stream.Enabled() ==> message == Some(stream.buf);
  }

  /** Raising or lowering the threshold while a statement is being built does
      not change whether it posts: the statement keeps the threshold it read
      when it began. */
  method ThresholdChangeMidStatement(registry: Registry, level: int, v: Value, threshold: int, hooks: Hooks)
    requires registry.instance != null
    modifies registry.instance`trace, registry.instance`logLevel
    ensures var frontend := registry.instance;
            frontend.logLevel == threshold
            && frontend.trace == old(frontend.trace)
                 + StatementCalls(frontend, level, StatementMessage(old(frontend.logLevel), level, [v], hooks, frontend.newLine))
  {
    var frontend := registry.instance;
    var stream := new Stream(registry, level, hooks);
    frontend.logLevel := threshold;
    stream.Append(v);
    assert stream.appended == [v];
    stream.Close(registry);
  }
}
