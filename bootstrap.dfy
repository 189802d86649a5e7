/**
 * Connection lifecycle (bootstrap.go): the bootstrap's listener registry,
 * building a pipeline and channel around each transport, the listener's
 * accept loop, and shutdown.
 *
 * The collaborators (transport factory, pipeline, channel and channel-ID
 * factories, initializers) are not code here: dialing and listening are
 * function parameters, accepting is a script of outcomes, and the calls the
 * bootstrap makes on them are recorded in a ghost log.
 */
module Bootstraps {
  import opened Wrappers
  import opened Exceptions
  import opened Transport
  import opened Pipelines

  /** A transport (an established connection), identified. */
  type TransportId = nat

  /** A caller-supplied attachment, identified. */
  type Attachment = nat

  /** The calls the bootstrap makes on its collaborators. */
  datatype Call =
    | Dialed(options: Fields)                               // transportFactory.Connect
    | Listened(options: Fields)                             // transportFactory.Listen
    | ChannelBuilt(id: ChannelId, transport: TransportId)   // pipeline, channel-ID and channel factories
    | AttachmentSet(id: ChannelId)                          // channel.SetAttachment
    | Initialized(id: ChannelId, child: bool)               // childInitializer (true) or clientInitializer
    | Served(id: ChannelId)                                 // channel.serveChannel, once the pipeline holds the channel
    | TransportClosed(transport: TransportId)               // t.Close() on a transport accepted after cancellation

  /** What the transport factory's `Listen` answers: an acceptor (and what closing its socket will report), or an error. */
  datatype ListenOutcome = Bound(closeResult: Option<Error>) | ListenFailed(err: Error)

  /**
   * One `Accept` of the loop: a transport (with what closing it would
   * report, and whether the bootstrap was cancelled by a concurrent
   * `Shutdown` before the loop looked), or an error.
   */
  datatype AcceptStep =
    | Accepted(transport: TransportId, closeResult: Option<Error>, cancelledMeanwhile: bool)
    | AcceptFailed(err: Error)

  /** How `Sync` ends: it returned this error (None is nil), or it is still accepting when the script runs out. */
  datatype SyncOutcome = Returned(err: Option<Error>) | StillAccepting

  /** The error of a second `Sync` on one listener. */
  const DuplicateSync := PlainError("duplicate call Listener:Sync")

  /** Whether the loop returns at this step, given whether the bootstrap was already cancelled. */
  predicate EndsLoop(cancelled: bool, s: AcceptStep) {
    s.AcceptFailed? || cancelled || s.cancelledMeanwhile
  }

  /** The index of the step at which the accept loop returns; |steps| if it never does. */
  function StopIndex(cancelled: bool, steps: seq<AcceptStep>): (k: nat)
    ensures k <= |steps|
    ensures forall j :: 0 <= j < k ==> !EndsLoop(cancelled, steps[j])
    ensures k < |steps| ==> EndsLoop(cancelled, steps[k])
    decreases |steps|
  {
    if steps == [] || EndsLoop(cancelled, steps[0]) then 0
    else 1 + StopIndex(cancelled, steps[1..])
  }

  /** What `Sync`'s loop returns when it ends at step k. */
  function LoopResult(steps: seq<AcceptStep>, k: nat): SyncOutcome
    requires k <= |steps|
  {
    if k == |steps| then StillAccepting
    else match steps[k]
      case AcceptFailed(e) => Returned(Some(e))
      case Accepted(_, closeResult, _) => Returned(closeResult)
  }

  /** The collaborator calls of serving each accepted transport in `steps` as a child channel, IDs from `firstId`. */
  function ServeCalls(steps: seq<AcceptStep>, firstId: ChannelId): seq<Call>
    requires forall j :: 0 <= j < |steps| ==> steps[j].Accepted?
    decreases |steps|
  {
    if steps == [] then []
    else
      var n := |steps| - 1;
      ServeCalls(steps[..n], firstId) +
        [ChannelBuilt(firstId + n, steps[n].transport), Initialized(firstId + n, true), Served(firstId + n)]
  }

  /**
   * Each accepted transport gets one channel, with the next ID, then exactly
   * one (child) initializer call, then starts being served.
   */
  lemma {:induction false} ServeCallsAt(steps: seq<AcceptStep>, firstId: ChannelId, j: nat)
    requires forall i :: 0 <= i < |steps| ==> steps[i].Accepted?
    requires j < |steps|
    ensures |ServeCalls(steps, firstId)| == 3 * |steps|
    ensures ServeCalls(steps, firstId)[3 * j] == ChannelBuilt(firstId + j, steps[j].transport)
    ensures ServeCalls(steps, firstId)[3 * j + 1] == Initialized(firstId + j, true)
    ensures ServeCalls(steps, firstId)[3 * j + 2] == Served(firstId + j)
    decreases |steps|
  {
    var n := |steps| - 1;
    if j < n {
      ServeCallsAt(steps[..n], firstId, j);
    } else if n > 0 {
      ServeCallsAt(steps[..n], firstId, 0);
    }
  }

  /** The listeners still registered while `Shutdown` works: those not yet closed, and those without an acceptor. */
  function Survivors(snapshot: map<string, Listener>, pending: set<string>, bound: set<string>): map<string, Listener> {
    map u | u in snapshot && (u in pending || u !in bound) :: snapshot[u]
  }

  /** Closing the listener under `u` removes it exactly when it is bound. */
  lemma SurvivorsStep(snapshot: map<string, Listener>, pending: set<string>, bound: set<string>, u: string)
    requires u in pending
    ensures Survivors(snapshot, pending - {u}, bound) ==
      if u in bound then Survivors(snapshot, pending, bound) - {u} else Survivors(snapshot, pending, bound)
  {
  }

  /** Once every listener is closed, exactly the unbound ones survive. */
  lemma SurvivorsDone(snapshot: map<string, Listener>, bound: set<string>)
    ensures Survivors(snapshot, {}, bound) == map u | u in snapshot && u !in bound :: snapshot[u]
  {
  }

  /** A channel as the channel factory builds it: an ID, its own pipeline, its transport and an optional attachment. */
  class Channel {
    const id: ChannelId
    const pipeline: Pipeline
    const transport: TransportId
    var attachment: Option<Attachment>

    constructor (id: ChannelId, pipeline: Pipeline, transport: TransportId)
      ensures this.id == id && this.pipeline == pipeline && this.transport == transport
      ensures attachment.None?
    {
      this.id := id;
      this.pipeline := pipeline;
      this.transport := transport;
      attachment := None;
    }
  }

  class Bootstrap {
    const context: ContextId
    var listeners: map<string, Listener>
    var cancelled: bool
    var nextChannelId: ChannelId
    ghost var log: seq<Call>

    /** Every registered listener belongs to this bootstrap and is stored under its own url. */
    ghost predicate Valid()
      reads this
    {
      forall u :: u in listeners ==> listeners[u].url == u && listeners[u].bs == this
    }

    /** `NewBootstrap` with its root context: no listeners, not cancelled. */
    constructor (context: ContextId)
      ensures Valid() && this.context == context
      ensures listeners == map[] && !cancelled && log == []
    {
      this.context := context;
      listeners := map[];
      cancelled := false;
      nextChannelId := 0;
      log := [];
    }

    /**
     * `serveTransport`: a new pipeline and channel (with the next channel
     * ID) around `t`, the attachment set when there is one, then exactly one
     * initializer (the child one for accepted transports), then the pipeline
     * attached to the channel and the channel served, so handlers are in
     * place before anything is read.
     */
    method ServeTransport(t: TransportId, attachment: Option<Attachment>, child: bool) returns (ch: Channel)
      modifies this
      ensures fresh(ch) && fresh(ch.pipeline)
      ensures ch.id == old(nextChannelId) && ch.transport == t && ch.attachment == attachment
      ensures ch.pipeline.Valid() && ch.pipeline.Channel() == Some(ch.id)
      ensures nextChannelId == old(nextChannelId) + 1
      ensures log == old(log) + [ChannelBuilt(ch.id, t)] + (if attachment.Some? then [AttachmentSet(ch.id)] else []) +
        [Initialized(ch.id, child), Served(ch.id)]
      ensures listeners == old(listeners) && cancelled == old(cancelled)
    {
      var pipeline := new Pipeline();
      var cid := nextChannelId;
      nextChannelId := nextChannelId + 1;
      ch := new Channel(cid, pipeline, t);
      log := log + [ChannelBuilt(cid, t)];
      if attachment.Some? {
        ch.attachment := attachment;
        log := log + [AttachmentSet(cid)];
      }
      log := log + [Initialized(cid, child)];
      var err := ch.pipeline.ServeChannel(ch.id);
      log := log + [Served(cid)];
    }

    /**
     * `Connect`: parse the options, dial, and on success serve the dialed
     * transport as a client channel; a parse or dial error is returned with
     * nothing else done.
     */
    method Connect(url: string, attachment: Option<Attachment>, option: seq<TransportOption>,
                   parse: UrlParser, dial: Fields -> Result<TransportId, Error>)
      returns (ch: Channel?, err: Option<Error>)
      modifies this
      ensures listeners == old(listeners) && cancelled == old(cancelled)
      ensures var (f, perr) := Parsed(context, url, option, parse);
        if perr.Some? then
          ch == null && err == perr && log == old(log) && nextChannelId == old(nextChannelId)
        else match dial(f)
          case Failure(e) =>
            ch == null && err == Some(e) && log == old(log) + [Dialed(f)] && nextChannelId == old(nextChannelId)
          case Success(t) =>
            ch != null && fresh(ch) && err.None? &&
            ch.id == old(nextChannelId) && ch.transport == t && ch.attachment == attachment &&
            ch.pipeline.Valid() && ch.pipeline.Channel() == Some(ch.id) &&
            nextChannelId == old(nextChannelId) + 1 &&
            log == old(log) + [Dialed(f), ChannelBuilt(ch.id, t)] + (if attachment.Some? then [AttachmentSet(ch.id)] else []) +
              [Initialized(ch.id, false), Served(ch.id)]
    {
      var options, perr := ParseOptions(context, url, option, parse);
      if perr.Some? {
        return null, perr;
      }
      var f := options.Current();
      log := log + [Dialed(f)];
      match dial(f)
      case Failure(e) =>
        return null, Some(e);
      case Success(t) =>
        ch := ServeTransport(t, attachment, false);
        return ch, None;
    }

    /** `Listen`: no I/O; a new listener stored under its url, replacing any earlier one. */
    method Listen(url: string, option: seq<TransportOption>) returns (l: Listener)
      modifies this
      ensures fresh(l) && l.bs == this && l.url == url && l.option == option
      ensures l.acceptor == null && l.options == null
      ensures listeners == old(listeners)[url := l]
      ensures old(Valid()) ==> Valid()
      ensures cancelled == old(cancelled) && log == old(log) && nextChannelId == old(nextChannelId)
    {
      l := new Listener(this, url, option);
      listeners := listeners[url := l];
    }

    /** `removeListener`: whatever is registered under `url` is removed. */
    method RemoveListener(url: string)
      modifies this
      ensures listeners == old(listeners) - {url}
      ensures old(Valid()) ==> Valid()
      ensures cancelled == old(cancelled) && log == old(log) && nextChannelId == old(nextChannelId)
    {
      listeners := listeners - {url};
    }

    /**
     * `Shutdown`: cancel first, then close every registered listener. A
     * listener that never obtained an acceptor is not removed by its `Close`,
     * so exactly those stay registered.
     */
    method Shutdown()
      requires Valid()
      modifies this, set u | u in listeners && listeners[u].acceptor != null :: listeners[u].acceptor
      ensures Valid() && cancelled
      ensures listeners == map u | u in old(listeners) && old(listeners[u].acceptor) == null :: old(listeners)[u]
      ensures forall u :: u in old(listeners) && old(listeners[u].acceptor) != null ==> !old(listeners[u].acceptor).open
      ensures log == old(log) && nextChannelId == old(nextChannelId)
    {
      cancelled := true;
      var snapshot := listeners;
      ghost var bound := set u | u in snapshot && snapshot[u].acceptor != null;
      var pending := snapshot.Keys;
      while pending != {}
        invariant pending <= snapshot.Keys
        invariant Valid() && cancelled
        invariant forall u :: u in snapshot ==> snapshot[u].acceptor == old(snapshot[u].acceptor)
        invariant listeners == Survivors(snapshot, pending, bound)
        invariant forall u :: u in snapshot && u !in pending && snapshot[u].acceptor != null ==> !snapshot[u].acceptor.open
        invariant log == old(log) && nextChannelId == old(nextChannelId)
        decreases pending
      {
        var u :| u in pending;
        var l := snapshot[u];
        SurvivorsStep(snapshot, pending, bound, u);
        var _ := l.Close();
        pending := pending - {u};
      }
      SurvivorsDone(snapshot, bound);
    }

    /**
     * The accept loop of `Sync`: every accepted transport is served as a
     * child channel until an accept fails (its error is returned) or
     * cancellation is seen after an accept (that transport is closed and its
     * close result returned).
     */
    method AcceptLoop(accepts: seq<AcceptStep>) returns (outcome: SyncOutcome)
      modifies this
      ensures var k := StopIndex(old(cancelled), accepts);
        outcome == LoopResult(accepts, k) &&
        nextChannelId == old(nextChannelId) + k &&
        cancelled == (old(cancelled) || (k < |accepts| && accepts[k].Accepted? && accepts[k].cancelledMeanwhile)) &&
        log == old(log) + ServeCalls(accepts[..k], old(nextChannelId)) +
          (if k < |accepts| && accepts[k].Accepted? then [TransportClosed(accepts[k].transport)] else [])
      ensures listeners == old(listeners)
    {
      ghost var k := StopIndex(cancelled, accepts);
      var i := 0;
      while i < |accepts|
        invariant 0 <= i <= k
        invariant listeners == old(listeners) && cancelled == old(cancelled)
        invariant nextChannelId == old(nextChannelId) + i
        invariant log == old(log) + ServeCalls(accepts[..i], old(nextChannelId))
      {
        match accepts[i]
        case AcceptFailed(e) =>
          return Returned(Some(e));
        case Accepted(t, closeResult, cancelledMeanwhile) =>
          if cancelledMeanwhile {
            cancelled := true;
          }
          if cancelled {
            log := log + [TransportClosed(t)];
            return Returned(closeResult);
          }
          var _ := ServeTransport(t, None, true);
          assert accepts[..i + 1][..i] == accepts[..i];
        i := i + 1;
      }
      return StillAccepting;
    }
  }

  class Listener {
    const bs: Bootstrap
    const url: string
    const option: seq<TransportOption>
    var options: Options?
    var acceptor: Acceptor?

    constructor (bs: Bootstrap, url: string, option: seq<TransportOption>)
      ensures this.bs == bs && this.url == url && this.option == option
      ensures options == null && acceptor == null
    {
      this.bs := bs;
      this.url := url;
      this.option := option;
      options := null;
      acceptor := null;
    }

    /**
     * `Close`: with no acceptor, nil and nothing changes; otherwise the url
     * is removed from the registry and the acceptor's close result returned.
     */
    method Close() returns (err: Option<Error>)
      modifies bs, acceptor
      ensures acceptor == old(acceptor)
      ensures old(acceptor) == null ==> err.None? && bs.listeners == old(bs.listeners)
      ensures old(acceptor) != null ==>
        bs.listeners == old(bs.listeners) - {url} && !acceptor.open &&
        err == (if old(acceptor.open) then acceptor.closeResult else None)
      ensures old(bs.Valid()) ==> bs.Valid()
      ensures bs.cancelled == old(bs.cancelled) && bs.log == old(bs.log) && bs.nextChannelId == old(bs.nextChannelId)
    {
      if acceptor != null {
        bs.RemoveListener(url);
        err := acceptor.Close();
        return;
      }
      return None;
    }

    /**
     * `Sync`: refused when an acceptor already exists; otherwise parse the
     * options, listen, and accept until an accept fails or cancellation is
     * seen after an accept, serving every other accepted transport as a
     * child channel.
     */
    method Sync(parse: UrlParser, listen: Fields -> ListenOutcome, accepts: seq<AcceptStep>)
      returns (outcome: SyncOutcome)
      modifies this, bs
      ensures bs.listeners == old(bs.listeners)
      ensures old(acceptor) != null ==>
        outcome == Returned(Some(DuplicateSync)) && acceptor == old(acceptor) && options == old(options) &&
        unchanged(bs)
      ensures old(acceptor) == null ==>
        var (f, perr) := Parsed(bs.context, url, option, parse);
        options != null && fresh(options) && options.Current() == f &&
        if perr.Some? then
          outcome == Returned(perr) && acceptor == null && unchanged(bs)
        else match listen(f)
          case ListenFailed(e) =>
            outcome == Returned(Some(e)) && acceptor == null && bs.log == old(bs.log) + [Listened(f)] &&
            bs.cancelled == old(bs.cancelled) && bs.nextChannelId == old(bs.nextChannelId)
          case Bound(closeResult) =>
            var k := StopIndex(old(bs.cancelled), accepts);
            acceptor != null && fresh(acceptor) && acceptor.open && acceptor.closeResult == closeResult &&
            outcome == LoopResult(accepts, k) &&
            bs.nextChannelId == old(bs.nextChannelId) + k &&
            bs.cancelled == (old(bs.cancelled) || (k < |accepts| && accepts[k].Accepted? && accepts[k].cancelledMeanwhile)) &&
            bs.log == old(bs.log) + [Listened(f)] + ServeCalls(accepts[..k], old(bs.nextChannelId)) +
              (if k < |accepts| && accepts[k].Accepted? then [TransportClosed(accepts[k].transport)] else [])
    {
      if acceptor != null {
        return Returned(Some(DuplicateSync));
      }
      var opts, err := ParseOptions(bs.context, url, option, parse);
      options := opts;
      if err.Some? {
        return Returned(err);
      }
      var f := opts.Current();
      bs.log := bs.log + [Listened(f)];
      match listen(f)
      case ListenFailed(e) =>
        return Returned(Some(e));
      case Bound(closeResult) =>
        acceptor := new Acceptor(closeResult);
      outcome := bs.AcceptLoop(accepts);
    }
  }
}
