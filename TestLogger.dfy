/**
  The capturing logger of src/createTestLogger.ts. `createTestLogger()` owns
  four string lists; `log`, `error`, `warn` and `info` each format their
  arguments into one line and push it onto their own list.

  What the JavaScript engine does with values that are neither strings nor
  `undefined` is not interpreted: `JSON.stringify` and `String(error)` are
  the two functions of a `Host`, and an error's `stack` and `message` are
  carried as data.
*/
module TestLogger {
  import opened Wrappers

  /** An `Error` value as `format` sees it: `stack` may be missing (`undefined`). */
  datatype ErrorObject = ErrorObject(stack: Option<string>, message: string)

  /** One argument passed to a logger method. */
  datatype Arg<V> =
    | Str(s: string)         // typeof a === "string"
    | Undefined              // a === undefined
    | Failure(err: ErrorObject)  // a instanceof Error
    | Other(value: V)        // anything else, shown by JSON.stringify

  /**
    The engine's conversions: `stringify` is `JSON.stringify`, which yields
    `undefined` (None) for values JSON cannot represent, and `errorToString`
    is `String(error)`.
  */
  datatype Host<!V> = Host(stringify: V -> Option<string>, errorToString: ErrorObject -> string)

  const SPACE: char := ' '

  /** JavaScript truthiness of a possibly missing string. */
  predicate Truthy(o: Option<string>)
  {
    o.Some? && o.value != ""
  }

  /** The `map` callback of `format`; None is the `undefined` that `JSON.stringify` can return. */
  function Render<V>(a: Arg<V>, host: Host<V>): (r: Option<string>)
  {
    match a
    case Str(s) => Some(s)
    case Undefined => Some("undefined")
    case Failure(e) =>
      if Truthy(e.stack) then e.stack
      else if e.message != "" then Some(e.message)
      else Some(host.errorToString(e))
    case Other(v) => host.stringify(v)
  }

  /** How `Array.prototype.join` writes one element: `undefined` becomes the empty string. */
  function JoinElement(o: Option<string>): (r: string)
  {
    if o.Some? then o.value else ""
  }

  /** The text each argument contributes to the line. */
  function Texts<V>(args: seq<Arg<V>>, host: Host<V>): (r: seq<string>)
    ensures |r| == |args|
    ensures forall i :: 0 <= i < |args| ==> r[i] == JoinElement(Render(args[i], host))
  {
    if args == [] then [] else [JoinElement(Render(args[0], host))] + Texts(args[1..], host)
  }

  /** `parts.join(" ")` */
  function Join(parts: seq<string>): (r: string)
  {
    if |parts| == 0 then ""
    else if |parts| == 1 then parts[0]
    else parts[0] + [SPACE] + Join(parts[1..])
  }

  /** `format(args)`: every argument rendered, joined by single spaces. */
  function Format<V>(args: seq<Arg<V>>, host: Host<V>): (r: string)
  {
    Join(Texts(args, host))
  }

  // ---------------------------------------------------------------------------
  // Properties of format
  // ---------------------------------------------------------------------------

  /** No arguments give the empty line; one argument gives exactly its text. */
  lemma FormatFewArgs<V>(host: Host<V>, a: Arg<V>)
    ensures Format([], host) == ""
    ensures Format([a], host) == JoinElement(Render(a, host))
  {
    assert Texts([a], host) == [JoinElement(Render(a, host))];
  }

  /** Strings pass through unchanged: a single string (the empty one too) is the whole line. */
  lemma FormatString<V>(host: Host<V>, s: string)
    ensures Format([Str(s)], host) == s
  {
    FormatFewArgs(host, Str(s));
  }

  /** `undefined` is written as the word undefined. */
  lemma FormatUndefined<V>(host: Host<V>)
    ensures Format([Undefined], host) == "undefined"
  {
    FormatFewArgs(host, Undefined);
  }

  /** An error shows its stack, else its message, else `String(error)`. */
  lemma FormatError<V>(host: Host<V>, e: ErrorObject)
    ensures Format([Failure(e)], host) ==
      if e.stack.Some? && e.stack.value != "" then e.stack.value
      else if e.message != "" then e.message
      else host.errorToString(e)
  {
    FormatFewArgs(host, Failure(e));
  }

  /** Any other value shows as `JSON.stringify` of it, and as nothing when that is `undefined`. */
  lemma FormatOther<V>(host: Host<V>, v: V)
    ensures Format([Other(v)], host) == if host.stringify(v).Some? then host.stringify(v).value else ""
  {
    FormatFewArgs(host, Other(v));
  }

  /** `log("test", "multiple", "args")` writes "test multiple args". */
  lemma FormatThreeWords<V>(host: Host<V>)
    ensures Format([Str("test"), Str("multiple"), Str("args")], host) == "test multiple args"
  {
    var args: seq<Arg<V>> := [Str("test"), Str("multiple"), Str("args")];
    assert Texts(args, host) == ["test", "multiple", "args"];
    assert Join(["args"]) == "args";
    assert Join(["multiple", "args"]) == "multiple" + [SPACE] + "args";
  }

  /** Joining two non-empty lists puts one space between their joins. */
  lemma {:induction false} JoinAppend(a: seq<string>, b: seq<string>)
    requires a != [] && b != []
    ensures Join(a + b) == Join(a) + [SPACE] + Join(b)
  {
    if |a| == 1 {
      assert (a + b)[1..] == b;
    } else {
      assert (a + b)[1..] == a[1..] + b;
      JoinAppend(a[1..], b);
    }
  }

  /** The texts of a + b are the texts of a followed by those of b. */
  lemma {:induction false} TextsAppend<V>(a: seq<Arg<V>>, b: seq<Arg<V>>, host: Host<V>)
    ensures Texts(a + b, host) == Texts(a, host) + Texts(b, host)
  {
    var l, r := Texts(a + b, host), Texts(a, host) + Texts(b, host);
    assert |l| == |r|;
    forall i | 0 <= i < |l| ensures l[i] == r[i] {
      if i < |a| {
        assert (a + b)[i] == a[i];
      } else {
        assert (a + b)[i] == b[i - |a|];
      }
    }
  }

  /** The line for a + b is the line for a, one space, and the line for b. */
  lemma FormatAppend<V>(a: seq<Arg<V>>, b: seq<Arg<V>>, host: Host<V>)
    requires a != [] && b != []
    ensures Format(a + b, host) == Format(a, host) + [SPACE] + Format(b, host)
  {
    TextsAppend(a, b, host);
    JoinAppend(Texts(a, host), Texts(b, host));
  }

  /** Splitting a line at every space (the inverse of `join(" ")`). */
  function Split(s: string): (r: seq<string>)
    ensures |r| >= 1
  {
    if s == [] then [""]
    else
      var rest := Split(s[1..]);
      if s[0] == SPACE then [""] + rest else [[s[0]] + rest[0]] + rest[1..]
  }

  /** A word without spaces, followed by a space, splits off as one piece. */
  lemma {:induction false} SplitWord(p: string, q: string)
    requires SPACE !in p
    ensures Split(p + [SPACE] + q) == [p] + Split(q)
    ensures Split(p) == [p]
  {
    if p != [] {
      assert (p + [SPACE] + q)[1..] == p[1..] + [SPACE] + q;
      SplitWord(p[1..], q);
      assert [p[0]] + p[1..] == p;
    }
  }

  /**
    Join really separates with single spaces: when no part contains a space,
    splitting the joined line at spaces gives back exactly the parts.
  */
  lemma {:induction false} SplitJoin(parts: seq<string>)
    requires parts != []
    requires forall i :: 0 <= i < |parts| ==> SPACE !in parts[i]
    ensures Split(Join(parts)) == parts
  {
    if |parts| == 1 {
      SplitWord(parts[0], "");
    } else {
      SplitWord(parts[0], Join(parts[1..]));
      SplitJoin(parts[1..]);
    }
  }

  /** When no argument renders with a space, the line splits back into the rendered arguments. */
  lemma FormatSplits<V>(args: seq<Arg<V>>, host: Host<V>)
    requires args != []
    requires forall i :: 0 <= i < |args| ==> SPACE !in JoinElement(Render(args[i], host))
    ensures Split(Format(args, host)) == Texts(args, host)
  {
    SplitJoin(Texts(args, host));
  }

  // ---------------------------------------------------------------------------
  // The logger
  // ---------------------------------------------------------------------------

  /** The object `createTestLogger()` returns: the logger and its four lists. */
  class CapturingLogger<V> {
    const host: Host<V>
    var logs: seq<string>
    var errors: seq<string>
    var warns: seq<string>
    var infos: seq<string>

    /** `createTestLogger()`: four empty lists. */
    constructor (host: Host<V>)
      ensures this.host == host
      ensures logs == [] && errors == [] && warns == [] && infos == []
    {
      this.host := host;
      logs, errors, warns, infos := [], [], [], [];
    }

    /** `logger.log(...args)` */
    method Log(args: seq<Arg<V>>)
      modifies this
      ensures logs == old(logs) + [Format(args, host)]
      ensures errors == old(errors) && warns == old(warns) && infos == old(infos)
    {
      logs := logs + [Format(args, host)];
    }

    /** `logger.error(...args)` */
    method Error(args: seq<Arg<V>>)
      modifies this
      ensures errors == old(errors) + [Format(args, host)]
      ensures logs == old(logs) && warns == old(warns) && infos == old(infos)
    {
      errors := errors + [Format(args, host)];
    }

    /** `logger.warn(...args)` */
    method Warn(args: seq<Arg<V>>)
      modifies this
      ensures warns == old(warns) + [Format(args, host)]
      ensures logs == old(logs) && errors == old(errors) && infos == old(infos)
    {
      warns := warns + [Format(args, host)];
    }

    /** `logger.info(...args)` */
    method Info(args: seq<Arg<V>>)
      modifies this
      ensures infos == old(infos) + [Format(args, host)]
      ensures logs == old(logs) && errors == old(errors) && warns == old(warns)
    {
      infos := infos + [Format(args, host)];
    }
  }

  /** One call of each method puts each message in its own list and nowhere else. */
  method EachMethodHasItsList<V>(host: Host<V>)
    returns (logs: seq<string>, errors: seq<string>, warns: seq<string>, infos: seq<string>)
    ensures logs == ["log message"] && errors == ["error message"]
    ensures warns == ["warn message"] && infos == ["info message"]
  {
    var t := new CapturingLogger(host);
    t.Log([Str("log message")]);
    t.Error([Str("error message")]);
    t.Warn([Str("warn message")]);
    t.Info([Str("info message")]);
    FormatString(host, "log message");
    FormatString(host, "error message");
    FormatString(host, "warn message");
    FormatString(host, "info message");
    logs, errors, warns, infos := t.logs, t.errors, t.warns, t.infos;
  }

  /** Successive calls append in call order. */
  method CallsAppendInOrder<V>(host: Host<V>) returns (logs: seq<string>)
    ensures logs == ["first", "second", "third"]
  {
    var t := new CapturingLogger(host);
    t.Log([Str("first")]);
    t.Log([Str("second")]);
    t.Log([Str("third")]);
    FormatString(host, "first");
    FormatString(host, "second");
    FormatString(host, "third");
    logs := t.logs;
  }

  /** Two loggers share no lists: writing to one leaves the other empty. */
  method LoggersAreIndependent<V>(host: Host<V>)
    returns (logs1: seq<string>, errors1: seq<string>, logs2: seq<string>, errors2: seq<string>)
    ensures logs1 == ["test1"] && errors1 == ["error1"]
    ensures logs2 == [] && errors2 == []
  {
    var t1 := new CapturingLogger(host);
    var t2 := new CapturingLogger(host);
    t1.Log([Str("test1")]);
    t1.Error([Str("error1")]);
    FormatString(host, "test1");
    FormatString(host, "error1");
    logs1, errors1, logs2, errors2 := t1.logs, t1.errors, t2.logs, t2.errors;
  }
}
