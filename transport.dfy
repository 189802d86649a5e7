/**
 * Transport options (transport/options.go): the `Options` record that a
 * transport factory dials or listens with, the option functions that fill it
 * in, and the acceptor contract the bootstrap relies on.
 */
module Transport {
  import opened Wrappers
  import opened Exceptions

  /** A parsed endpoint URL; only the parts the model uses. */
  datatype Url = Url(scheme: string, host: string, path: string)

  /** A `context.Context`, identified and otherwise opaque. */
  type ContextId = nat

  /** `url.Parse`, a collaborator: a URL or the error it reports. */
  type UrlParser = string -> Result<Url, Error>

  /** The host and port `net.SplitHostPort` splits an address into. */
  datatype HostPort = HostPort(host: string, port: string)

  /** `net.SplitHostPort`, a collaborator. */
  type HostPortSplitter = string -> Result<HostPort, Error>

  /** The fields of `Options`: the (possibly nil) address and the context. */
  datatype Fields = Fields(address: Option<Url>, context: ContextId)

  /**
   * A transport `Option`: the two option functions options.go defines, and
   * any other caller-supplied function, which may change the fields and may fail.
   */
  datatype TransportOption =
    | WithAddress(address: string)
    | WithContext(ctx: ContextId)
    | Custom(run: Fields -> (Fields, Option<Error>))

  /** `strings.Contains`. */
  function Contains(s: string, sub: string): (r: bool)
    decreases |s|
  {
    if |sub| > |s| then false
    else s[..|sub|] == sub || Contains(s[1..], sub)
  }

  /** `Contains` holds exactly when `sub` occurs in `s` at some offset. */
  lemma {:induction false} ContainsMeansOccurs(s: string, sub: string)
    ensures Contains(s, sub) <==> exists i :: 0 <= i <= |s| - |sub| && OccursAt(s, sub, i)
    decreases |s|
  {
    if |sub| <= |s| {
      if OccursAt(s, sub, 0) {
        return;
      }
      ContainsMeansOccurs(s[1..], sub);
      if Contains(s[1..], sub) {
        var i :| 0 <= i <= |s| - 1 - |sub| && OccursAt(s[1..], sub, i);
        assert OccursAt(s, sub, i + 1);
      } else {
        forall i | 1 <= i <= |s| - |sub|
          ensures !OccursAt(s, sub, i)
        {
          assert !OccursAt(s[1..], sub, i - 1);
          assert s[i..i + |sub|] == s[1..][i - 1..i - 1 + |sub|];
        }
      }
    }
  }

  /** `sub` occurs in `s` starting at offset `i`. */
  ghost predicate OccursAt(s: string, sub: string, i: int)
    requires 0 <= i <= |s| - |sub|
  {
    s[i..i + |sub|] == sub
  }

  /** The two parse failures after which a bare `host:port` is parsed again as `//host:port`. */
  predicate RetryAsNetworkPath(e: Error) {
    Contains(e.message, "cannot contain colon") || Contains(e.message, "missing protocol scheme")
  }

  /** The default path "/" for a URL parsed with an empty one. */
  function WithDefaultPath(u: Url): (r: Url)
    ensures r.scheme == u.scheme && r.host == u.host && r.path != ""
    ensures u.path != "" ==> r == u
    ensures u.path == "" ==> r.path == "/"
  {
    if u.path == "" then u.(path := "/") else u
  }

  /** The URL the address option settles on: the first parse, or the `//` retry when that one failed as above. */
  function ParseAddress(address: string, parse: UrlParser): Result<Url, Error> {
    var first := parse(address);
    if first.Failure? && RetryAsNetworkPath(first.error) then parse("//" + address) else first
  }

  /** What the `withAddress(address)` option does to the fields. */
  function AddressOption(f: Fields, address: string, parse: UrlParser): (r: (Fields, Option<Error>))
    ensures r.0.context == f.context
    ensures r.1.None? <==> r.0.address.Some?
    ensures r.0.address.Some? ==> r.0.address.value.path != ""
    ensures parse(address).Success? ==> r.0.address == Some(WithDefaultPath(parse(address).value))
    ensures parse(address).Failure? && !RetryAsNetworkPath(parse(address).error) ==>
      r.1 == Some(parse(address).error)
    ensures parse(address).Failure? && RetryAsNetworkPath(parse(address).error) ==>
      match parse("//" + address)
      case Success(u) => r.0.address == Some(WithDefaultPath(u)) && r.1.None?
      case Failure(e) => r.0.address.None? && r.1 == Some(e)
  {
    match ParseAddress(address, parse)
    case Success(u) => (f.(address := Some(WithDefaultPath(u))), None)
    case Failure(e) => (f.(address := None), Some(e))
  }

  /** Running one option against the fields: the new fields and the error it returns. */
  function Step(f: Fields, opt: TransportOption, parse: UrlParser): (Fields, Option<Error>) {
    match opt
    case WithAddress(address) => AddressOption(f, address, parse)
    case WithContext(ctx) => (f.(context := ctx), None)
    case Custom(run) => run(f)
  }

  /** `Apply` as a fold: options in order, stopping at the first one that returns an error. */
  function ApplyAll(f: Fields, opts: seq<TransportOption>, parse: UrlParser): (Fields, Option<Error>)
    decreases |opts|
  {
    if opts == [] then (f, None)
    else
      var (f', err) := Step(f, opts[0], parse);
      if err.Some? then (f', err) else ApplyAll(f', opts[1..], parse)
  }

  /**
   * Applying `xs + ys` is applying `xs` and then, only if that returned no
   * error, `ys` to its result: the options run in order and none after the
   * first failing one runs.
   */
  lemma {:induction false} ApplyAllAppend(f: Fields, xs: seq<TransportOption>, ys: seq<TransportOption>, parse: UrlParser)
    ensures ApplyAll(f, xs + ys, parse) ==
      var (f', err) := ApplyAll(f, xs, parse);
      if err.Some? then (f', err) else ApplyAll(f', ys, parse)
    decreases |xs|
  {
    if xs == [] {
      assert xs + ys == ys;
    } else {
      assert (xs + ys)[0] == xs[0] && (xs + ys)[1..] == xs[1..] + ys;
      var (f1, e1) := Step(f, xs[0], parse);
      if e1.None? {
        ApplyAllAppend(f1, xs[1..], ys, parse);
      }
    }
  }

  /** The error `ApplyAll` returns, if any, is the one returned by some option run on the fields before it. */
  lemma {:induction false} ApplyAllErrorComesFromAnOption(f: Fields, opts: seq<TransportOption>, parse: UrlParser)
    requires ApplyAll(f, opts, parse).1.Some?
    ensures exists k :: (0 <= k < |opts| && ApplyAll(f, opts[..k], parse).1.None? &&
      Step(ApplyAll(f, opts[..k], parse).0, opts[k], parse) == ApplyAll(f, opts, parse))
    decreases |opts|
  {
    var (f1, e1) := Step(f, opts[0], parse);
    if e1.Some? {
      assert opts[..0] == [];
    } else {
      ApplyAllErrorComesFromAnOption(f1, opts[1..], parse);
      var k :| 0 <= k < |opts| - 1 && ApplyAll(f1, opts[1..][..k], parse).1.None? &&
        Step(ApplyAll(f1, opts[1..][..k], parse).0, opts[1..][k], parse) == ApplyAll(f1, opts[1..], parse);
      assert opts[..k + 1] == [opts[0]] + opts[1..][..k];
      ApplyAllAppend(f, [opts[0]], opts[1..][..k], parse);
      assert opts[..k + 1][1..] == opts[1..][..k];
    }
  }

  /** `WithContext` never fails and changes only the context. */
  lemma WithContextOnlySetsContext(f: Fields, ctx: ContextId, rest: seq<TransportOption>, parse: UrlParser)
    ensures ApplyAll(f, [WithContext(ctx)] + rest, parse) == ApplyAll(Fields(f.address, ctx), rest, parse)
  {
    assert ([WithContext(ctx)] + rest)[1..] == rest;
  }

  /** What `ParseOptions` computes: the address option first, then the caller's options. */
  function Parsed(ctx: ContextId, url: string, opts: seq<TransportOption>, parse: UrlParser): (Fields, Option<Error>) {
    ApplyAll(Fields(None, ctx), [WithAddress(url)] + opts, parse)
  }

  /**
   * The address option runs before every caller option: if it fails, no
   * caller option runs; otherwise the caller's options run on its result.
   */
  lemma ParsedAddressFirst(ctx: ContextId, url: string, opts: seq<TransportOption>, parse: UrlParser)
    ensures Parsed(ctx, url, opts, parse) ==
      var (f, err) := AddressOption(Fields(None, ctx), url, parse);
      if err.Some? then (f, err) else ApplyAll(f, opts, parse)
  {
    assert ([WithAddress(url)] + opts)[1..] == opts;
  }

  /** The `Options` record, which the option functions update in place. */
  class Options {
    var address: Option<Url>
    var context: ContextId

    /** The current fields. */
    function Current(): Fields
      reads this
    {
      Fields(address, context)
    }

    /** `&Options{Context: ctx}`. */
    constructor (ctx: ContextId)
      ensures address.None? && context == ctx
    {
      address := None;
      context := ctx;
    }

    /** `Apply`: runs the options in order and returns the first error. */
    method Apply(opts: seq<TransportOption>, parse: UrlParser) returns (err: Option<Error>)
      modifies this
      ensures (Current(), err) == ApplyAll(old(Current()), opts, parse)
    {
      for i := 0 to |opts|
        invariant ApplyAll(old(Current()), opts, parse) == ApplyAll(Current(), opts[i..], parse)
      {
        assert opts[i..][1..] == opts[i + 1..];
        var (f, e) := Step(Current(), opts[i], parse);
        address, context := f.address, f.context;
        if e.Some? {
          return e;
        }
      }
      return None;
    }

    /**
     * `AddressWithoutHost`: ":" and the port of the address's host; a host
     * that does not split (a panic in the source) is an error here.
     */
    function AddressWithoutHost(split: HostPortSplitter): (r: Result<string, Error>)
      reads this
      requires address.Some?
      ensures r.Success? <==> split(address.value.host).Success?
      ensures r.Success? ==>
        |r.value| >= 1 && r.value[0] == ':' && r.value[1..] == split(address.value.host).value.port
    {
      match split(address.value.host)
      case Failure(e) => Failure(e)
      case Success(hp) => Success(":" + hp.port)
    }
  }

  /** `ParseOptions`: a new `Options` holding ctx, then the address option and the caller's options. */
  method ParseOptions(ctx: ContextId, url: string, opts: seq<TransportOption>, parse: UrlParser)
    returns (options: Options, err: Option<Error>)
    ensures fresh(options)
    ensures (options.Current(), err) == Parsed(ctx, url, opts, parse)
  {
    options := new Options(ctx);
    err := options.Apply([WithAddress(url)] + opts, parse);
  }

  /**
   * An acceptor (transport/tcp/factory.go). Only its `Close` is modelled:
   * the first call releases the socket and returns what the OS reports,
   * later calls do nothing and return nil.
   */
  class Acceptor {
    var open: bool
    const closeResult: Option<Error>

    constructor (closeResult: Option<Error>)
      ensures open && this.closeResult == closeResult
    {
      open := true;
      this.closeResult := closeResult;
    }

    method Close() returns (err: Option<Error>)
      modifies this
      ensures !open
      ensures err == if old(open) then closeResult else None
    {
      if open {
        open := false;
        return closeResult;
      }
      return None;
    }
  }
}
