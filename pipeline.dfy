/**
 * The handler pipeline (pipeline.go): a doubly linked chain of handler
 * contexts between two fixed sentinels, `head` and `tail`.
 *
 * The contexts live in an arena owned by the pipeline: a context is a handle
 * (an index), `handlers[n]` is its handler and `next[n]`/`prev[n]` are its
 * links, with -1 for nil. The ghost `chain` lists the handles from head to tail.
 */
module Pipelines {
  import opened Wrappers

  /** The six handler capabilities (the six handler interfaces). */
  datatype Capability = Active | Inbound | Outbound | Exception | Inactive | Event

  /** A handler: one of the two sentinels, or a caller's handler with the capabilities it implements. */
  datatype Handler =
    | HeadSentinel
    | TailSentinel
    | User(id: nat, caps: set<Capability>)

  /** A handler `checkHandler` accepts: it implements at least one capability. */
  predicate Recognized(h: Handler) {
    match h
    case User(_, caps) => caps != {}
    case _ => true
  }

  ghost predicate AllRecognized(hs: seq<Handler>) {
    forall i :: 0 <= i < |hs| ==> Recognized(hs[i])
  }

  /** `i` is the first index of `hs` whose handler is not recognized. */
  ghost predicate FirstUnrecognized(hs: seq<Handler>, i: nat) {
    i < |hs| && !Recognized(hs[i]) && forall j :: 0 <= j < i ==> Recognized(hs[j])
  }

  /** The configuration errors the source raises as panics. */
  datatype PipelineError =
    | UnrecognizedHandler(index: nat)
    | InvalidPosition(position: int)
    | AlreadyAttached

  /** A channel, identified by its ID; the channel itself is a collaborator. */
  type ChannelId = nat

  /** A context handle. */
  type NodeId = nat

  /** The six `Fire*` entry points. */
  datatype FireKind = ChannelActive | ChannelRead | ChannelWrite | ChannelException | ChannelInactive | ChannelEvent

  /** `checkHandler`: the index of the first handler that implements no capability, if any. */
  method CheckHandlers(hs: seq<Handler>) returns (bad: Option<nat>)
    ensures bad.None? <==> AllRecognized(hs)
    ensures bad.Some? ==> FirstUnrecognized(hs, bad.value)
  {
    for i := 0 to |hs|
      invariant forall j :: 0 <= j < i ==> Recognized(hs[j])
    {
      if !Recognized(hs[i]) {
        return Some(i);
      }
    }
    return None;
  }

  /** `hs` in reverse order. */
  function Reverse<T>(hs: seq<T>): (r: seq<T>)
    ensures |r| == |hs|
  {
    if hs == [] then [] else [hs[|hs| - 1]] + Reverse(hs[..|hs| - 1])
  }

  /** The k-th element of the reverse is the k-th from the end. */
  lemma {:induction false} ReverseAt<T>(hs: seq<T>, k: nat)
    requires k < |hs|
    ensures Reverse(hs)[k] == hs[|hs| - 1 - k]
    decreases |hs|
  {
    if k > 0 {
      ReverseAt(hs[..|hs| - 1], k - 1);
    }
  }

  /** Reversing `s + [x]` puts `x` first. */
  lemma ReverseSnoc<T>(s: seq<T>, x: T)
    ensures Reverse(s + [x]) == [x] + Reverse(s)
  {
    assert (s + [x])[..|s|] == s;
  }

  /** One round of `AddFirst`: inserting `hs[i]` after head extends the reversed prefix. */
  lemma PrependStep(hs: seq<Handler>, i: nat, rest: seq<Handler>)
    requires i < |hs|
    ensures [HeadSentinel, hs[i]] + ([HeadSentinel] + Reverse(hs[..i]) + rest)[1..] ==
      [HeadSentinel] + Reverse(hs[..i + 1]) + rest
  {
    assert hs[..i + 1] == hs[..i] + [hs[i]];
    ReverseSnoc(hs[..i], hs[i]);
    assert ([HeadSentinel] + Reverse(hs[..i]) + rest)[1..] == Reverse(hs[..i]) + rest;
  }

  /** `s` with `xs` inserted right after index `at`. */
  function InsertAt<T>(s: seq<T>, at: nat, xs: seq<T>): (r: seq<T>)
    requires at < |s|
    ensures |r| == |s| + |xs|
  {
    s[..at + 1] + xs + s[at + 1..]
  }

  /** One round of `AddHandler`'s insertion loop: `hs[j]` goes right after the `j` handlers already placed. */
  lemma InsertStep<T>(s: seq<T>, at: nat, hs: seq<T>, j: nat)
    requires at < |s| && j < |hs|
    ensures InsertAt(InsertAt(s, at, hs[..j]), at + j, [hs[j]]) == InsertAt(s, at, hs[..j + 1])
  {
    var c := InsertAt(s, at, hs[..j]);
    assert c[..at + j + 1] == s[..at + 1] + hs[..j];
    assert c[at + j + 1..] == s[at + 1..];
    assert hs[..j + 1] == hs[..j] + [hs[j]];
  }

  /** The handlers of the nodes `chain` lists, in that order. */
  function Project(handlers: seq<Handler>, chain: seq<NodeId>): (r: seq<Handler>)
    requires InArena(chain, |handlers|)
    ensures |r| == |chain|
  {
    seq(|chain|, k requires 0 <= k < |chain| => handlers[chain[k]])
  }

  /** Every chain entry names a node of an arena of `n` nodes. */
  ghost predicate InArena(chain: seq<NodeId>, n: nat) {
    forall k :: 0 <= k < |chain| ==> chain[k] < n
  }

  /** No node is listed twice. */
  ghost predicate Distinct(chain: seq<NodeId>) {
    forall j, k :: 0 <= j < k < |chain| ==> chain[j] != chain[k]
  }

  /** `next` links each chain entry to the following one. */
  ghost predicate NextLinks(next: seq<int>, chain: seq<NodeId>)
    requires InArena(chain, |next|)
  {
    forall k :: 0 <= k < |chain| - 1 ==> next[chain[k]] == chain[k + 1]
  }

  /** `prev` links each chain entry to the one before it. */
  ghost predicate PrevLinks(prev: seq<int>, chain: seq<NodeId>)
    requires InArena(chain, |prev|)
  {
    forall k :: 1 <= k < |chain| ==> prev[chain[k]] == chain[k - 1]
  }

  /**
   * The chain invariant on the arena: `chain` starts at head (node 0) and
   * ends at tail (node 1), lists every node exactly once, and `next`/`prev`
   * link consecutive chain entries, with nil (-1) past either end.
   */
  ghost predicate ChainOk(handlers: seq<Handler>, next: seq<int>, prev: seq<int>, chain: seq<NodeId>) {
    && |handlers| == |next| == |prev| == |chain| >= 2
    && chain[0] == 0 && chain[|chain| - 1] == 1
    && handlers[0] == HeadSentinel && handlers[1] == TailSentinel
    && InArena(chain, |chain|)
    && Distinct(chain)
    && NextLinks(next, chain)
    && PrevLinks(prev, chain)
    && next[1] == -1 && prev[0] == -1
  }

  /** The chain with node `n` spliced in after index `p`. */
  function Spliced(chain: seq<NodeId>, p: nat, n: NodeId): (r: seq<NodeId>)
    requires p < |chain|
    ensures |r| == |chain| + 1 && r[p + 1] == n
    ensures forall k :: 0 <= k <= p ==> r[k] == chain[k]
    ensures forall k :: p + 1 < k < |r| ==> r[k] == chain[k - 1]
  {
    chain[..p + 1] + [n] + chain[p + 1..]
  }

  /** A fresh node spliced into a chain of distinct nodes keeps them distinct and in the grown arena. */
  lemma SpliceDistinct(chain: seq<NodeId>, p: nat)
    requires p < |chain| && InArena(chain, |chain|) && Distinct(chain)
    ensures InArena(Spliced(chain, p, |chain|), |chain| + 1) && Distinct(Spliced(chain, p, |chain|))
  {
    var c := Spliced(chain, p, |chain|);
    forall j, k | 0 <= j < k < |c|
      ensures c[j] != c[k]
    {
      if k == p + 1 || j == p + 1 {
      } else {
        var j0 := if j <= p then j else j - 1;
        var k0 := if k <= p then k else k - 1;
        assert c[j] == chain[j0] && c[k] == chain[k0] && j0 < k0;
      }
    }
  }

  /** Pointing `cur` at the new node, and the new node at `cur`'s old successor, links the spliced chain forward. */
  lemma SpliceNext(next: seq<int>, chain: seq<NodeId>, p: nat)
    requires p < |chain| - 1 && |next| == |chain| && InArena(chain, |chain|) && Distinct(chain)
    requires NextLinks(next, chain)
    ensures InArena(Spliced(chain, p, |chain|), |chain| + 1)
    ensures NextLinks(next[chain[p] := |chain|] + [chain[p + 1]], Spliced(chain, p, |chain|))
  {
    SpliceDistinct(chain, p);
    var c, cur := Spliced(chain, p, |chain|), chain[p];
    var next' := next[cur := |chain|] + [chain[p + 1]];
    forall k | 0 <= k < |c| - 1
      ensures next'[c[k]] == c[k + 1]
    {
      if k < p {
        assert chain[k] != cur;
      } else if k > p + 1 {
        assert chain[k - 1] != cur;
      }
    }
  }

  /** Pointing `cur`'s old successor back at the new node, and the new node back at `cur`, links it backward. */
  lemma SplicePrev(prev: seq<int>, chain: seq<NodeId>, p: nat)
    requires p < |chain| - 1 && |prev| == |chain| && InArena(chain, |chain|) && Distinct(chain)
    requires PrevLinks(prev, chain)
    ensures InArena(Spliced(chain, p, |chain|), |chain| + 1)
    ensures PrevLinks(prev[chain[p + 1] := |chain|] + [chain[p]], Spliced(chain, p, |chain|))
  {
    SpliceDistinct(chain, p);
    var c, after := Spliced(chain, p, |chain|), chain[p + 1];
    var prev' := prev[after := |chain|] + [chain[p]];
    forall k | 1 <= k < |c|
      ensures prev'[c[k]] == c[k - 1]
    {
      if k <= p {
        assert chain[k] != after;
      } else if k > p + 2 {
        assert chain[k - 1] != after;
      }
    }
  }

  /** Splicing a fresh node after chain index `p` (not the tail) keeps the chain invariant. */
  lemma SpliceKeepsChain(handlers: seq<Handler>, next: seq<int>, prev: seq<int>, chain: seq<NodeId>, p: nat, h: Handler)
    requires ChainOk(handlers, next, prev, chain) && p < |chain| - 1
    ensures var n, cur, after := |chain|, chain[p], chain[p + 1];
      ChainOk(handlers + [h], next[cur := n] + [after], prev[after := n] + [cur], Spliced(chain, p, n))
  {
    SpliceDistinct(chain, p);
    SpliceNext(next, chain, p);
    SplicePrev(prev, chain, p);
    assert chain[p] != 1 && chain[p + 1] != 0;
  }

  /** Splicing `h` in after chain index `p` inserts it into the handler sequence at p + 1. */
  lemma SpliceContents(handlers: seq<Handler>, chain: seq<NodeId>, p: nat, h: Handler)
    requires InArena(chain, |handlers|) && p < |chain|
    ensures InArena(Spliced(chain, p, |handlers|), |handlers| + 1)
    ensures Project(handlers + [h], Spliced(chain, p, |handlers|)) == InsertAt(Project(handlers, chain), p, [h])
  {
    var chain' := Spliced(chain, p, |handlers|);
    var old0 := Project(handlers, chain);
    var r := Project(handlers + [h], chain');
    var t := InsertAt(old0, p, [h]);
    assert |r| == |t|;
    forall k | 0 <= k < |r|
      ensures r[k] == t[k]
    {
      if k <= p {
      } else if k == p + 1 {
      } else {
        assert chain'[k] == chain[k - 1];
      }
    }
  }

  class Pipeline {
    const head: NodeId := 0
    const tail: NodeId := 1
    var handlers: seq<Handler>
    var next: seq<int>
    var prev: seq<int>
    var channel: Option<ChannelId>
    var size: int
    ghost var chain: seq<NodeId>

    /**
     * The chain invariant: head first and tail last, every node on the chain
     * exactly once, `next` and `prev` consistent along it, and `size` its length.
     */
    ghost predicate Valid()
      reads this
    {
      size == |chain| && ChainOk(handlers, next, prev, chain)
    }

    /** The handlers from head to tail. */
    ghost function Contents(): (s: seq<Handler>)
      reads this
      requires Valid()
      ensures |s| == size
    {
      Project(handlers, chain)
    }

    /** The handler list always starts with the head sentinel and ends with the tail sentinel. */
    lemma SentinelsAtEnds()
      requires Valid()
      ensures Contents()[0] == HeadSentinel && Contents()[size - 1] == TailSentinel
    {
    }

    /** `NewPipelineWith`: head and tail linked to each other. */
    constructor ()
      ensures Valid() && Contents() == [HeadSentinel, TailSentinel] && size == 2
      ensures next[head] == tail && prev[tail] == head
      ensures channel.None?
    {
      handlers := [HeadSentinel, TailSentinel];
      next := [1, -1];
      prev := [-1, 0];
      channel := None;
      size := 2;
      chain := [0, 1];
    }

    /**
     * Splice a new context holding `h` after `cur`, the node at chain index
     * `p` (not the tail): the link rewrites of addFirst, addLast and AddHandler.
     */
    method Link(cur: NodeId, ghost p: nat, h: Handler) returns (node: NodeId)
      requires Valid() && p < |chain| - 1 && chain[p] == cur
      modifies this
      ensures Valid()
      ensures node == old(size) && |chain| == old(|chain|) + 1 && chain[p + 1] == node
      ensures Contents() == InsertAt(old(Contents()), p, [h])
      ensures handlers[..old(size)] == old(handlers)
      ensures size == old(size) + 1 && channel == old(channel)
    {
      SpliceKeepsChain(handlers, next, prev, chain, p, h);
      SpliceContents(handlers, chain, p, h);
      var n := |handlers|;
      var oldNext := next[cur];
      handlers := handlers + [h];
      next := next[cur := n] + [oldNext];
      prev := prev[oldNext := n] + [cur];
      size := size + 1;
      chain := Spliced(chain, p, n);
      node := n;
    }

    /** `addFirst`: a context for `h` right after head. */
    method AddFirstOne(h: Handler)
      requires Valid()
      modifies this
      ensures Valid()
      ensures Contents() == [HeadSentinel, h] + old(Contents()[1..])
      ensures size == old(size) + 1 && channel == old(channel)
    {
      var _ := Link(head, 0, h);
    }

    /** `addLast`: a context for `h` right before tail. */
    method AddLastOne(h: Handler)
      requires Valid()
      modifies this
      ensures Valid()
      ensures Contents() == old(Contents()[..size - 1]) + [h, TailSentinel]
      ensures size == old(size) + 1 && channel == old(channel)
    {
      assert prev[chain[size - 1]] == chain[size - 2];
      var before: NodeId := prev[tail];
      var _ := Link(before, size - 2, h);
    }

    /**
     * `AddFirst`: after all handlers are checked, each one is inserted right
     * after head in turn, so they end up in reverse argument order.
     */
    method AddFirst(hs: seq<Handler>) returns (err: Option<PipelineError>)
      requires Valid()
      modifies this
      ensures Valid()
      ensures err.None? <==> AllRecognized(hs)
      ensures err.Some? ==> err.value.UnrecognizedHandler? && FirstUnrecognized(hs, err.value.index)
      ensures err.Some? ==> unchanged(this)
      ensures err.None? ==>
        Contents() == [HeadSentinel] + Reverse(hs) + old(Contents()[1..]) &&
        size == old(size) + |hs| && channel == old(channel)
    {
      var bad := CheckHandlers(hs);
      if bad.Some? {
        return Some(UnrecognizedHandler(bad.value));
      }
      ghost var rest := Contents()[1..];
      assert Contents() == [HeadSentinel] + rest;
      for i := 0 to |hs|
        invariant Valid()
        invariant Contents() == [HeadSentinel] + Reverse(hs[..i]) + rest
        invariant size == old(size) + i && channel == old(channel)
      {
        PrependStep(hs, i, rest);
        AddFirstOne(hs[i]);
      }
      assert hs[..|hs|] == hs;
      return None;
    }

    /** `AddLast`: after all handlers are checked, they are inserted before tail in argument order. */
    method AddLast(hs: seq<Handler>) returns (err: Option<PipelineError>)
      requires Valid()
      modifies this
      ensures Valid()
      ensures err.None? <==> AllRecognized(hs)
      ensures err.Some? ==> err.value.UnrecognizedHandler? && FirstUnrecognized(hs, err.value.index)
      ensures err.Some? ==> unchanged(this)
      ensures err.None? ==>
        Contents() == old(Contents()[..size - 1]) + hs + [TailSentinel] &&
        size == old(size) + |hs| && channel == old(channel)
    {
      var bad := CheckHandlers(hs);
      if bad.Some? {
        return Some(UnrecognizedHandler(bad.value));
      }
      ghost var front := Contents()[..size - 1];
      assert Contents() == front + [TailSentinel];
      for i := 0 to |hs|
        invariant Valid()
        invariant Contents() == front + hs[..i] + [TailSentinel]
        invariant size == old(size) + i && channel == old(channel)
      {
        AddLastOne(hs[i]);
        assert hs[..i + 1] == hs[..i] + [hs[i]];
        assert Contents() == (front + hs[..i]) + [hs[i], TailSentinel];
      }
      assert hs[..|hs|] == hs;
      return None;
    }

    /**
     * `AddHandler`: handlers checked first, then the position; -1 and
     * size-1 mean "before tail"; otherwise the handlers follow, in argument
     * order, the node reached from head in `position` steps (head itself
     * when `position` is below -1).
     */
    method AddHandler(position: int, hs: seq<Handler>) returns (err: Option<PipelineError>)
      requires Valid()
      modifies this
      ensures Valid()
      ensures !AllRecognized(hs) ==>
        err.Some? && err.value.UnrecognizedHandler? && FirstUnrecognized(hs, err.value.index)
      ensures AllRecognized(hs) && position >= old(size) ==> err == Some(InvalidPosition(position))
      ensures AllRecognized(hs) && position < old(size) ==> err.None?
      ensures err.Some? ==> unchanged(this)
      ensures err.None? ==> size == old(size) + |hs| && channel == old(channel)
      ensures err.None? && (position == -1 || position == old(size) - 1) ==>
        Contents() == old(Contents()[..size - 1]) + hs + [TailSentinel]
      ensures err.None? && 0 <= position < old(size) - 1 ==>
        Contents() == old(Contents()[..position + 1]) + hs + old(Contents()[position + 1..])
      ensures err.None? && position < -1 ==>
        Contents() == old(Contents()[..1]) + hs + old(Contents()[1..])
    {
      var bad := CheckHandlers(hs);
      if bad.Some? {
        return Some(UnrecognizedHandler(bad.value));
      }
      if position >= size {
        return Some(InvalidPosition(position));
      }
      if position == -1 || position == size - 1 {
        err := AddLast(hs);
        return;
      }
      var cur := head;
      var i := 0;
      while i < position
        invariant 0 <= i && (i <= position || i == 0) && cur == chain[i]
      {
        cur := next[cur];
        i := i + 1;
      }
      LinkAll(cur, i, hs);
      return None;
    }

    /** The insertion loop of `AddHandler`: `hs` in order after `cur`, the node at chain index `at`. */
    method LinkAll(cur: NodeId, ghost at: nat, hs: seq<Handler>)
      requires Valid() && at < |chain| - 1 && chain[at] == cur
      modifies this
      ensures Valid()
      ensures Contents() == InsertAt(old(Contents()), at, hs)
      ensures size == old(size) + |hs| && channel == old(channel)
    {
      ghost var old0 := Contents();
      var node := cur;
      assert hs[..0] == [] && InsertAt(old0, at, []) == old0;
      for j := 0 to |hs|
        invariant Valid()
        invariant at + j < |chain| - 1 && node == chain[at + j]
        invariant Contents() == InsertAt(old0, at, hs[..j])
        invariant size == old(size) + j && channel == old(channel)
      {
        InsertStep(old0, at, hs, j);
        node := Link(node, at + j, hs[j]);
      }
      assert hs[..|hs|] == hs;
    }

    /** `IndexOf`: the first index from head, sentinels included, whose handler satisfies `comp`; -1 if none. */
    method IndexOf(comp: Handler -> bool) returns (index: int)
      requires Valid()
      ensures -1 <= index < size
      ensures index == -1 <==> forall k :: 0 <= k < size ==> !comp(Contents()[k])
      ensures index >= 0 ==> comp(Contents()[index]) && forall k :: 0 <= k < index ==> !comp(Contents()[k])
    {
      var node := head;
      var i := 0;
      while true
        invariant 0 <= i < |chain| && node == chain[i]
        invariant forall k :: 0 <= k < i ==> !comp(Contents()[k])
        decreases |chain| - i
      {
        if comp(handlers[node]) {
          assert Contents()[i] == handlers[node];
          return i;
        }
        assert i < |chain| - 1 ==> next[chain[i]] == chain[i + 1];
        if next[node] == -1 {
          assert Contents()[i] == handlers[node];
          return -1;
        }
        node := next[node];
        i := i + 1;
      }
    }

    /** `LastIndexOf`: the last index, sentinels included, whose handler satisfies `comp`; -1 if none. */
    method LastIndexOf(comp: Handler -> bool) returns (index: int)
      requires Valid()
      ensures -1 <= index < size
      ensures index == -1 <==> forall k :: 0 <= k < size ==> !comp(Contents()[k])
      ensures index >= 0 ==> comp(Contents()[index]) && forall k :: index < k < size ==> !comp(Contents()[k])
    {
      var node := tail;
      var i := size - 1;
      while true
        invariant 0 <= i < |chain| && node == chain[i]
        invariant forall k :: i < k < size ==> !comp(Contents()[k])
        decreases i
      {
        if comp(handlers[node]) {
          assert Contents()[i] == handlers[node];
          return i;
        }
        assert i > 0 ==> prev[chain[i]] == chain[i - 1];
        if prev[node] == -1 {
          assert Contents()[i] == handlers[node];
          return -1;
        }
        node := prev[node];
        i := i - 1;
      }
    }

    /**
     * `ContextAt`: nothing for -1 or a position past the tail; otherwise the
     * node reached from head in `position` steps (head for any position below -1).
     */
    method ContextAt(position: int) returns (ctx: Option<NodeId>)
      requires Valid()
      ensures ctx.None? <==> position == -1 || position >= size
      ensures ctx.Some? ==>
        var index := if position < 0 then 0 else position;
        ctx.value == chain[index] && handlers[ctx.value] == Contents()[index]
    {
      if position == -1 || position >= size {
        return None;
      }
      var node := head;
      var i := 0;
      while i < position
        invariant 0 <= i && (i <= position || i == 0) && node == chain[i]
      {
        node := next[node];
        i := i + 1;
      }
      return Some(node);
    }

    /** `Size`: the number of contexts, sentinels included. */
    function Size(): (n: int)
      reads this
      requires Valid()
      ensures n == |Contents()| && n >= 2
    {
      size
    }

    /** `Channel`: the attached channel, if any. */
    function Channel(): Option<ChannelId>
      reads this
    {
      channel
    }

    /** `ServeChannel`: attach `c`, once; a second attachment fails and keeps the first. */
    method ServeChannel(c: ChannelId) returns (err: Option<PipelineError>)
      modifies this`channel
      ensures old(channel).Some? ==> err == Some(AlreadyAttached) && channel == old(channel)
      ensures old(channel).None? ==> err.None? && Channel() == Some(c)
    {
      if channel.Some? {
        return Some(AlreadyAttached);
      }
      channel := Some(c);
      return None;
    }

    /** The `Fire*` calls: writes enter the chain at tail, every other event at head. */
    method Fire(kind: FireKind) returns (entry: NodeId)
      requires Valid()
      ensures kind == ChannelWrite ==> entry == chain[size - 1] && handlers[entry] == TailSentinel
      ensures kind != ChannelWrite ==> entry == chain[0] && handlers[entry] == HeadSentinel
    {
      if kind == ChannelWrite {
        return tail;
      }
      return head;
    }
  }
}
