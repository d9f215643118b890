/** The enabled dlog Frontend (`Frontend<…,0>` in dlog.h): its run-time
    settings, the ordered backend list, `Post`, and the process-wide slot
    that admits at most one live Frontend. */
module Dispatch {
  import opened Wrappers
  import opened Levels
  import opened Text

  /** A backend callback, identified by the application. */
  type BackendId = nat

  /** One call of a backend with the text it received. */
  datatype Delivery = Delivery(backend: BackendId, text: string)

  /** A level-to-label function, as the text it writes for a level. */
  type LevelToText = int -> string

  /** A formatter: (level-to-label function, raw message, level) to final text. */
  type Formatter = (LevelToText, string, int) -> string

  /** The text `Post` dispatches. Without a formatter the message passes
      through unchanged; with one, it is exactly what the formatter returns
      for the Frontend's label function, the message and the level. */
  function FinalText(formatter: Option<Formatter>, labeler: LevelToText, message: string, level: int): (r: string)
    ensures formatter.None? ==> r == message
    ensures formatter.Some? ==> r == formatter.value(labeler, message, level)
  {
    match formatter
    case None => message
    case Some(format) => format(labeler, message, level)
  }

  /** Calling every backend of the list, in order, with `text`. */
  function Deliveries(backends: seq<BackendId>, text: string): seq<Delivery> {
    if backends == [] then []
    else Deliveries(backends[..|backends| - 1], text) + [Delivery(backends[|backends| - 1], text)]
  }

  /** Every registered entry receives the text exactly once, in registration
      order: the k-th call goes to the k-th entry. */
  lemma {:induction false} DeliveriesInOrder(backends: seq<BackendId>, text: string)
    ensures |Deliveries(backends, text)| == |backends|
    ensures forall k :: 0 <= k < |backends| ==> Deliveries(backends, text)[k] == Delivery(backends[k], text)
  {
    if backends != [] {
      DeliveriesInOrder(backends[..|backends| - 1], text);
    }
  }

  /** The calls one `Post` makes: one per registered entry, in order, each
      with the final text as a C string (`c_str()`), that is, up to its
      first NUL. */
  function Posted(backends: seq<BackendId>, formatter: Option<Formatter>, labeler: LevelToText,
                  message: string, level: int): (r: seq<Delivery>)
    ensures |r| == |backends|
    ensures forall k :: 0 <= k < |backends| ==>
              r[k] == Delivery(backends[k], CStr(FinalText(formatter, labeler, message, level)))
  {
    var text := CStr(FinalText(formatter, labeler, message, level));
    DeliveriesInOrder(backends, text);
    Deliveries(backends, text)
  }

  /** A backend gets as many calls from one post as it has entries in the
      list, since registration does not remove duplicates. */
  lemma {:induction false} CallsPerBackend(backends: seq<BackendId>, text: string, b: BackendId)
    ensures multiset(Deliveries(backends, text))[Delivery(b, text)] == multiset(backends)[b]
  {
    if backends != [] {
      var front := backends[..|backends| - 1];
      assert backends == front + [backends[|backends| - 1]];
      CallsPerBackend(front, text, b);
    }
  }

  class Frontend {
    /** The run-time threshold; statements below it are suppressed. */
    var logLevel: int
    var formatter: Option<Formatter>
    var logLevelFormatter: LevelToText
    /** The text a statement ends with (`newLine`): public and assignable,
        modelled as the characters it points to. */
    var newLine: string
    var backends: seq<BackendId>
    /** The backend calls made so far. */
    ghost var trace: seq<Delivery>

    /** A Frontend as its member initialisers leave it. It is installed
        only through `Registry.Construct`. */
    constructor()
      ensures logLevel == DDEBUG && formatter == None && logLevelFormatter == LevelLabel
      ensures newLine == "\n" && backends == [] && trace == []
    {
      logLevel := DDEBUG;
      formatter := None;
      logLevelFormatter := LevelLabel;
      newLine := "\n";
      backends := [];
      trace := [];
    }

    /** `operator+=`: appends one entry; earlier entries are kept as they are
        and a backend already present is added again. */
    method AddBackend(backend: BackendId)
      modifies this`backends
      ensures backends == old(backends) + [backend]
    {
      backends := backends + [backend];
    }

    /** Formats the message if a formatter is set and calls every backend,
        in registration order, with the result. */
    method Post(message: string, level: int)
      modifies this`trace
      ensures trace == old(trace) + Posted(backends, formatter, logLevelFormatter, message, level)
    {
      var text := CStr(FinalText(formatter, logLevelFormatter, message, level));
      var i := 0;
      while i < |backends|
        invariant 0 <= i <= |backends|
        invariant trace == old(trace) + Deliveries(backends[..i], text)
      {
        assert backends[..i + 1][..i] == backends[..i];
        trace := trace + [Delivery(backends[i], text)];
        i := i + 1;
      }
      assert backends[..i] == backends;
    }
  }

  /** What constructing a Frontend does: it installs the new instance, or it
      throws because the slot is taken. */
  datatype Construction = Constructed(frontend: Frontend) | AlreadyInitialized

  /** The process-wide instance slot (`GetInstancePtr()`), with the set of
      Frontends that are constructed and not yet destroyed. */
  class Registry {
    var instance: Frontend?
    ghost var live: set<Frontend>

    /** The slot holds exactly the live Frontend, if there is one. */
    ghost predicate Valid()
      reads this
    {
      if instance == null then live == {} else live == {instance}
    }

    /** The slot starts empty, as a zero-initialised static. */
    constructor()
      ensures Valid() && instance == null
    {
      instance := null;
      live := {};
    }

    /** The Frontend constructor: a compare-and-swap of the slot from empty
        to the new instance. If the slot is taken it throws and the slot
        keeps the Frontend it held. */
    method Construct() returns (r: Construction)
      requires Valid()
      modifies this
      ensures Valid()
      ensures old(instance) != null ==> r == AlreadyInitialized && instance == old(instance) && live == old(live)
      ensures old(instance) == null ==> r.Constructed? && fresh(r.frontend) && instance == r.frontend
      ensures r.Constructed? ==> r.frontend.logLevel == DDEBUG && r.frontend.formatter == None
      ensures r.Constructed? ==> r.frontend.logLevelFormatter == LevelLabel && r.frontend.newLine == "\n"
      ensures r.Constructed? ==> r.frontend.backends == [] && r.frontend.trace == []
    {
      var candidate := new Frontend();
      if instance == null {
        instance := candidate;
        live := {candidate};
        r := Constructed(candidate);
      } else {
        r := AlreadyInitialized;
      }
    }

    /** The Frontend destructor: it empties the slot. */
    method Destroy(frontend: Frontend)
      requires Valid() && frontend in live
      modifies this
      ensures Valid() && instance == null && live == old(live) - {frontend}
    {
      instance := null;
      live := {};
    }
  }

  /** No two Frontends are ever live at once. */
  lemma AtMostOneLive(registry: Registry)
    requires registry.Valid()
    ensures |registry.live| <= 1
    ensures forall a, b :: a in registry.live && b in registry.live ==> a == b
  {
  }

  /** The lifecycle the slot admits: a second construction throws and keeps
      the first instance; after the first is destroyed, construction
      succeeds again. */
  method Lifecycle(registry: Registry) returns (first: Frontend, rejected: Construction, heldAfterReject: Frontend?, second: Frontend)
    requires registry.Valid() && registry.instance == null
    modifies registry
    ensures rejected == AlreadyInitialized && heldAfterReject == first
    ensures registry.Valid() && registry.instance == second
    ensures first != second && first !in registry.live
  {
    var r1 := registry.Construct();
    first := r1.frontend;
    rejected := registry.Construct();
    heldAfterReject := registry.instance;
    registry.Destroy(first);
    var r3 := registry.Construct();
    second := r3.frontend;
  }
}
