/**
 * Exception normalisation (exception.go): turning any failure value into an
 * `exception` that carries a cause and a captured stack, and rendering the
 * traceback text that `PrintStackTrace` writes.
 */
module Exceptions {
  import opened Wrappers

  /**
   * A Go `error` value. `typeName` is what `%T` prints for it and `message`
   * is what its `Error()` method returns; both are data here, so the model
   * does not need Go's formatting.
   */
  datatype Error = Error(typeName: string, message: string, unwrap: Unwrap)

  /**
   * Whether the error has an `Unwrap() error` method, and what it returns
   * (`UnwrapsTo(None)` is a method that returns nil).
   */
  datatype Unwrap = NoUnwrap | UnwrapsTo(inner: Option<Error>)

  /** The dynamic type `fmt.Errorf` gives an error built without `%w`. */
  const ErrorStringType := "*errors.errorString"

  /** A plain error as `fmt.Errorf` or `errors.New` builds it. */
  function PlainError(message: string): Error {
    Error(ErrorStringType, message, NoUnwrap)
  }

  /** The `exception` struct: the wrapped cause and the captured stack bytes. */
  datatype Exception = Exception(cause: Error, stack: string) {

    /** `Unwrap` gives back the wrapped cause. */
    function Unwrap(): Error { cause }

    /** `Error` is the cause's message. */
    function Message(): string { cause.message }

    /** `Stack` is the captured stack. */
    function Stack(): string { stack }
  }

  /**
   * What `AsException` can be handed (an `interface{}`): nil, a value that
   * already is an Exception, an error, or anything else, of which only its
   * `%v` rendering matters.
   */
  datatype Value =
    | Nil
    | ExceptionValue(ex: Exception)
    | ErrorValue(err: Error)
    | OtherValue(formatted: string)

  /** The `interface{}` view of what `AsException` returns. */
  function AsValue(x: Option<Exception>): Value {
    match x
    case None => Nil
    case Some(ex) => ExceptionValue(ex)
  }

  /** Normalise a failure value: nil stays nil, an Exception is kept, anything else is wrapped. */
  function AsException(v: Value, stack: string): (r: Option<Exception>)
    ensures r.None? <==> v.Nil?
    ensures v.ExceptionValue? ==> r == Some(v.ex)
    ensures v.ErrorValue? ==>
      r.Some? && r.value.Unwrap() == v.err && r.value.Message() == v.err.message && r.value.Stack() == stack
    ensures v.OtherValue? ==>
      r.Some? && r.value.Message() == v.formatted && r.value.Unwrap().unwrap.NoUnwrap? &&
      r.value.Stack() == stack
  {
    match v
    case Nil => None
    case ExceptionValue(ex) => Some(ex)
    case ErrorValue(err) => Some(Exception(err, stack))
    case OtherValue(formatted) => Some(Exception(PlainError(formatted), stack))
  }

  /** Wrapping is idempotent: normalising a normalised value, with any stack, changes nothing. */
  lemma AsExceptionIdempotent(v: Value, stack: string, stack': string)
    ensures AsException(AsValue(AsException(v, stack)), stack') == AsException(v, stack)
  {
  }

  /** The unwrap chain starting at `e`: each hop is what the previous one's `Unwrap` returns. */
  function Chain(e: Error): (c: seq<Error>)
    ensures |c| >= 1 && c[0] == e
    ensures forall k :: 0 <= k < |c| - 1 ==> c[k].unwrap == UnwrapsTo(Some(c[k + 1]))
    ensures !HasNext(c[|c| - 1])
    decreases e
  {
    match e.unwrap
    case UnwrapsTo(Some(inner)) => [e] + Chain(inner)
    case _ => [e]
  }

  /** Whether the walk goes on past `e`: it has an `Unwrap` that returns a non-nil error. */
  predicate HasNext(e: Error) {
    e.unwrap.UnwrapsTo? && e.unwrap.inner.Some?
  }

  /** One traceback entry, `%T: %s` of an error. */
  function Entry(e: Error): string {
    e.typeName + ": " + e.message
  }

  /** `strings.Repeat("  ", n)`. */
  function Indent(n: nat): (s: string)
    ensures |s| == 2 * n && forall k :: 0 <= k < |s| ==> s[k] == ' '
  {
    if n == 0 then "" else "  " + Indent(n - 1)
  }

  /**
   * The traceback entries of `hops`, where `hops[0]` is hop number `depth`
   * of the whole chain: hop j (j >= 1) is preceded by a newline and 2*j spaces.
   */
  function Render(hops: seq<Error>, depth: nat): string
    decreases |hops|
  {
    if hops == [] then ""
    else if |hops| == 1 then Entry(hops[0])
    else Entry(hops[0]) + "\n" + Indent(depth + 1) + Render(hops[1..], depth + 1)
  }

  /** The prefix messages, concatenated. */
  function Concat(msgs: seq<string>): string {
    if msgs == [] then "" else Concat(msgs[..|msgs| - 1]) + msgs[|msgs| - 1]
  }

  /** The whole text `PrintStackTrace` writes. */
  function TraceText(ex: Exception, msgs: seq<string>): string {
    Concat(msgs) + "Error Traceback:\n" + Render(Chain(ex.cause), 0) + "\n" + ex.stack
  }

  /** The traceback starts with the wrapped cause's entry. */
  lemma {:induction false} TraceStartsWithCause(ex: Exception, msgs: seq<string>)
    ensures var head := Concat(msgs) + "Error Traceback:\n" + Entry(ex.cause);
      |head| <= |TraceText(ex, msgs)| && TraceText(ex, msgs)[..|head|] == head
  {
    var c := Chain(ex.cause);
    var rest := if |c| == 1 then "" else "\n" + Indent(1) + Render(c[1..], 1);
    assert Render(c, 0) == Entry(ex.cause) + rest;
    var head := Concat(msgs) + "Error Traceback:\n" + Entry(ex.cause);
    assert TraceText(ex, msgs) == head + (rest + "\n" + ex.stack);
  }

  /**
   * The entries of a chain one hop at a time: the text for a chain of n + 1
   * hops is the text for its first n hops, a newline, 2n spaces and the last entry.
   */
  lemma {:induction false} RenderSnoc(hops: seq<Error>, e: Error, depth: nat)
    requires |hops| >= 1
    ensures Render(hops + [e], depth) == Render(hops, depth) + "\n" + Indent(depth + |hops|) + Entry(e)
    decreases |hops|
  {
    if |hops| == 1 {
      assert (hops + [e])[1..] == [e];
    } else {
      assert (hops + [e])[1..] == hops[1..] + [e];
      RenderSnoc(hops[1..], e, depth + 1);
    }
  }

  /** Rendering from hop i: hop i's entry, then (if there is a next hop) a newline, indentation and the rest. */
  lemma RenderHop(c: seq<Error>, i: nat)
    requires i < |c|
    requires forall k :: 0 <= k < |c| - 1 ==> c[k].unwrap == UnwrapsTo(Some(c[k + 1]))
    requires !HasNext(c[|c| - 1])
    ensures i + 1 < |c| <==> HasNext(c[i])
    ensures i + 1 < |c| ==> (c[i + 1] == c[i].unwrap.inner.value &&
      Render(c[i..], i) == Entry(c[i]) + "\n" + Indent(i + 1) + Render(c[i + 1..], i + 1))
    ensures i + 1 == |c| ==> Render(c[i..], i) == Entry(c[i])
  {
    assert c[i..][0] == c[i] && |c[i..]| == |c| - i;
    if i + 1 < |c| {
      assert c[i].unwrap == UnwrapsTo(Some(c[i + 1]));
      assert c[i..][1..] == c[i + 1..];
    }
  }

  /** Regrouping one traceback step: the text so far, an entry, a newline, indentation and the rest. */
  lemma Regroup(sofar: string, entry: string, indent: string, rest: string)
    ensures sofar + entry + "\n" + indent + rest == sofar + (entry + "\n" + indent + rest)
  {
  }

  /**
   * Builds the traceback text the way exception.go does: the prefix
   * messages, the header, one entry per hop of the unwrap chain and the stack.
   * The default writer (standard error) and the copy to it are not modelled:
   * the text is returned.
   */
  method PrintStackTrace(ex: Exception, msgs: seq<string>) returns (out: string)
    ensures out == TraceText(ex, msgs)
  {
    var sb := "";
    for j := 0 to |msgs|
      invariant sb == Concat(msgs[..j])
    {
      assert msgs[..j + 1][..j] == msgs[..j];
      sb := sb + msgs[j];
    }
    assert msgs[..|msgs|] == msgs;
    sb := sb + "Error Traceback:\n";
    ghost var base := sb;
    ghost var c := Chain(ex.cause);
    var err := ex.cause;
    var i := 0;
    while true
      invariant 0 <= i < |c| && err == c[i]
      invariant sb + Render(c[i..], i) == base + Render(c, 0)
      decreases |c| - i
    {
      RenderHop(c, i);
      ghost var before := sb;
      i := i + 1;
      sb := sb + Entry(err);
      if err.unwrap.UnwrapsTo? && err.unwrap.inner.Some? {
        sb := sb + "\n" + Indent(i);
        err := err.unwrap.inner.value;
        Regroup(before, Entry(c[i - 1]), Indent(i), Render(c[i..], i));
        continue;
      }
      assert before + Render(c[i - 1..], i - 1) == sb;
      break;
    }
    sb := sb + "\n" + ex.stack;
    out := sb;
  }

  /** Whether no `Unwrap` along the chain returns nil. */
  predicate NilFree(e: Error)
    decreases e
  {
    match e.unwrap
    case NoUnwrap => true
    case UnwrapsTo(None) => false
    case UnwrapsTo(Some(inner)) => NilFree(inner)
  }

  /**
   * The traceback loop of exception.go exactly as written, from the error
   * `err` with the counter `i` already incremented for it; None is the
   * run-time panic of calling `Error()` on a nil error, which happens when an
   * `Unwrap` returns nil.
   */
  function WalkAsWritten(err: Option<Error>, i: nat): Option<string>
    decreases err
  {
    match err
    case None => None
    case Some(e) =>
      match e.unwrap
      case NoUnwrap => Some(Entry(e))
      case UnwrapsTo(inner) =>
        var rest := WalkAsWritten(inner, i + 1);
        if rest.None? then None else Some(Entry(e) + "\n" + Indent(i) + rest.value)
  }

  /** Where no `Unwrap` returns nil, the loop as written renders exactly the chain. */
  lemma {:induction false} WalkAsWrittenAgrees(e: Error, depth: nat)
    requires NilFree(e)
    ensures WalkAsWritten(Some(e), depth + 1) == Some(Render(Chain(e), depth))
    decreases e
  {
    match e.unwrap
    case NoUnwrap =>
    case UnwrapsTo(Some(inner)) =>
      WalkAsWrittenAgrees(inner, depth + 1);
      assert Chain(e)[1..] == Chain(inner);
  }

  /** Conversely, where some `Unwrap` along the chain returns nil, the loop as written panics. */
  lemma {:induction false} WalkAsWrittenPanics(e: Error, depth: nat)
    requires !NilFree(e)
    ensures WalkAsWritten(Some(e), depth).None?
    decreases e
  {
    match e.unwrap
    case UnwrapsTo(Some(inner)) =>
      WalkAsWrittenPanics(inner, depth + 1);
    case UnwrapsTo(None) =>
  }

  /**
   * An error whose `Unwrap` returns nil: the loop as written panics, while
   * the traceback stops at that error.
   */
  lemma NilUnwrapPanics()
    ensures var e := Error("*url.Error", "parse failed", UnwrapsTo(None));
      WalkAsWritten(Some(e), 1).None? && Render(Chain(e), 0) == "*url.Error: parse failed"
  {
  }
}
