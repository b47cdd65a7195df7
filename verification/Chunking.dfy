/** Packing a transcript into chunks: greedy first fit on message boundaries, and why nothing does better. */
module Chunking {

  datatype Message = Message(seqNumber: int, text: string)

  const OVERHEAD := 80
  const MARKER := "\n[TRUNCATED SINGLE MESSAGE]"

  function Size(m: Message): nat { |m.text| + OVERHEAD }

  /** What a message counts for: an oversized one counts for a whole chunk. */
  function Counted(m: Message, max: nat): nat {
    if Size(m) > max then max else Size(m)
  }

  /** Python's text[:end], where a negative end counts from the back. */
  function Slice(text: string, end: int): string {
    if end >= |text| then text
    else if end >= 0 then text[..end]
    else if |text| + end >= 0 then text[..|text| + end]
    else ""
  }

  /** The message as it is put in a chunk: only an oversized text is shortened. */
  function Packed(m: Message, max: nat): Message {
    if Size(m) > max then m.(text := Slice(m.text, max - 200) + MARKER) else m
  }

  function PackedAll(ms: seq<Message>, max: nat): seq<Message> {
    if ms == [] then [] else PackedAll(ms[..|ms| - 1], max) + [Packed(ms[|ms| - 1], max)]
  }

  /** The characters of a group with 80 more for each message, an oversized message counting for the whole bound. */
  function Total(ms: seq<Message>, max: nat): nat {
    if ms == [] then 0
    else
      var length := |ms[|ms| - 1].text|;
      Total(ms[..|ms| - 1], max) + if length + 80 > max then max else length + 80
  }

  /**
   * p is m as it belongs in a chunk: unchanged with its 80 characters of overhead within the bound; otherwise cut to its
   * first max - 200 characters (counted from the back if that is negative) and marked. The number is kept.
   */
  predicate BelongsAs(m: Message, p: Message, max: nat) {
    && p.seqNumber == m.seqNumber
    && (|m.text| + 80 <= max ==> p.text == m.text)
    && (|m.text| + 80 > max >= 200 ==> |m.text| >= max - 200 && p.text == m.text[..max - 200] + "\n[TRUNCATED SINGLE MESSAGE]")
    && (|m.text| + 80 > max && max < 200 ==>
          p.text == (if |m.text| + max >= 200 then m.text[..|m.text| + max - 200] else "") + "\n[TRUNCATED SINGLE MESSAGE]")
  }

  predicate AllBelong(ms: seq<Message>, ps: seq<Message>, max: nat) {
    |ps| == |ms| && forall i | 0 <= i < |ms| :: BelongsAs(ms[i], ps[i], max)
  }

  lemma PackedBelongs(m: Message, max: nat)
    ensures BelongsAs(m, Packed(m, max), max)
  {
  }

  lemma {:induction false} PackedAllBelong(ms: seq<Message>, max: nat)
    ensures AllBelong(ms, PackedAll(ms, max), max)
  {
    if ms != [] {
      PackedAllBelong(ms[..|ms| - 1], max);
      PackedBelongs(ms[|ms| - 1], max);
    }
  }

  function Flatten<T>(groups: seq<seq<T>>): seq<T> {
    if groups == [] then [] else Flatten(groups[..|groups| - 1]) + groups[|groups| - 1]
  }

  /** A division of ms into consecutive groups, each within the bound. Groups may be empty. */
  ghost predicate Splits(groups: seq<seq<Message>>, ms: seq<Message>, max: nat) {
    Flatten(groups) == ms && forall i | 0 <= i < |groups| :: Total(groups[i], max) <= max
  }

  lemma FlattenAppend<T>(groups: seq<seq<T>>, g: seq<T>)
    ensures Flatten(groups + [g]) == Flatten(groups) + g
  {
    assert (groups + [g])[..|groups|] == groups;
  }

  lemma TotalAppend(ms: seq<Message>, m: Message, max: nat)
    ensures Total(ms + [m], max) == Total(ms, max) + Counted(m, max)
  {
    assert (ms + [m])[..|ms|] == ms;
  }

  lemma PackedAppend(ms: seq<Message>, m: Message, max: nat)
    ensures PackedAll(ms + [m], max) == PackedAll(ms, max) + [Packed(m, max)]
    ensures PackedAll(ms, max) == [] <==> ms == []
  {
    assert (ms + [m])[..|ms|] == ms;
  }

  lemma {:induction false} PackedConcat(a: seq<Message>, b: seq<Message>, max: nat)
    ensures PackedAll(a + b, max) == PackedAll(a, max) + PackedAll(b, max)
  {
    if b == [] {
      assert a + b == a;
    } else {
      var n := |b| - 1;
      assert a + b == (a + b[..n]) + [b[n]];
      PackedAppend(a + b[..n], b[n], max);
      PackedConcat(a, b[..n], max);
    }
  }

  // ---------------------------------------------------------------- greedy stays ahead

  /** Whoever splits ms needs more groups than k + 1, or as many with a last group at least `size` full. */
  ghost predicate Ahead(ms: seq<Message>, k: nat, size: nat, max: nat) {
    forall groups | Splits(groups, ms, max) :: NeedsMore(groups, k, size, max)
  }

  predicate NeedsMore(groups: seq<seq<Message>>, k: nat, size: nat, max: nat) {
    k + 1 < |groups| || (k + 1 == |groups| && size <= Total(groups[|groups| - 1], max))
  }

  /** Dropping the last message from a split whose last group is not empty leaves a split of the rest. */
  lemma DropLast(groups: seq<seq<Message>>, ms: seq<Message>, m: Message, max: nat) returns (shorter: seq<seq<Message>>)
    requires Splits(groups, ms + [m], max) && groups != [] && groups[|groups| - 1] != []
    ensures Splits(shorter, ms, max) && |shorter| == |groups|
    ensures Total(groups[|groups| - 1], max) == Total(shorter[|groups| - 1], max) + Counted(m, max)
  {
    var front, g := groups[..|groups| - 1], groups[|groups| - 1];
    var g0 := g[..|g| - 1];
    shorter := front + [g0];
    FlattenAppend(front, g0);
    assert Flatten(front) + g == ms + [m];
    assert g[|g| - 1] == (Flatten(front) + g)[|ms|] == m;
    assert g == g0 + [m];
    assert Flatten(front) + g0 == (ms + [m])[..|ms|] == ms;
    TotalAppend(g0, m, max);
    assert Total(groups[|groups| - 1], max) <= max;
    forall i | 0 <= i < |shorter| ensures Total(shorter[i], max) <= max {
      if i < |front| { assert shorter[i] == groups[i]; }
    }
  }

  lemma {:induction false} SplitsNeedGroups(groups: seq<seq<Message>>, ms: seq<Message>, max: nat)
    requires Splits(groups, ms, max) && ms != []
    ensures groups != []
  {
  }

  /** Opening a new chunk exactly when the next message does not fit keeps greedy ahead. */
  lemma {:induction false} AheadStep(ms: seq<Message>, k: nat, size: nat, m: Message, max: nat, groups: seq<seq<Message>>)
    requires Ahead(ms, k, size, max) && ms != [] && 0 < size <= max
    requires Splits(groups, ms + [m], max)
    ensures size + Size(m) > max ==> NeedsMore(groups, k + 1, Counted(m, max), max)
    ensures size + Size(m) <= max ==> NeedsMore(groups, k, size + Counted(m, max), max)
    decreases |groups|
  {
    SplitsNeedGroups(groups, ms + [m], max);
    var front, g := groups[..|groups| - 1], groups[|groups| - 1];
    if g == [] {
      assert Flatten(groups) == Flatten(front) + g == Flatten(front);
      assert Splits(front, ms + [m], max);
      AheadStep(ms, k, size, m, max, front);
    } else {
      var shorter := DropLast(groups, ms, m, max);
      assert Splits(shorter, ms, max);
      assert Total(groups[|groups| - 1], max) <= max;
    }
  }

  lemma {:induction false} AheadStart(m: Message, max: nat, groups: seq<seq<Message>>)
    requires Splits(groups, [m], max)
    ensures NeedsMore(groups, 0, Counted(m, max), max)
  {
    SplitsNeedGroups(groups, [m], max);
    if |groups| == 1 {
      assert groups[..0] == [] && Flatten(groups) == [] + groups[0] == groups[0];
      assert groups[0] == [] + [m];
      TotalAppend([], m, max);
    }
  }

  lemma AheadNext(ms: seq<Message>, k: nat, size: nat, m: Message, max: nat)
    requires max > 0 && size <= max && (ms != [] ==> size > 0 && Ahead(ms, k, size, max)) && (ms == [] ==> k == 0 && size == 0)
    ensures ms != [] && size + Size(m) > max ==> Ahead(ms + [m], k + 1, Counted(m, max), max)
    ensures ms == [] || size + Size(m) <= max ==> Ahead(ms + [m], k, size + Counted(m, max), max)
  {
    forall groups | Splits(groups, ms + [m], max)
      ensures ms != [] && size + Size(m) > max ==> NeedsMore(groups, k + 1, Counted(m, max), max)
      ensures ms == [] || size + Size(m) <= max ==> NeedsMore(groups, k, size + Counted(m, max), max)
    {
      if ms == [] {
        assert ms + [m] == [m];
        AheadStart(m, max, groups);
      } else {
        AheadStep(ms, k, size, m, max, groups);
      }
    }
  }

  // ---------------------------------------------------------------- the method

  predicate IsChunk(chunk: seq<Message>, group: seq<Message>, max: nat) {
    chunk == PackedAll(group, max) && group != [] && Total(group, max) <= max
  }

  /** The closed chunks and the open one hold the prefix read so far. */
  ghost predicate Partial(prefix: seq<Message>, chunks: seq<seq<Message>>, groups: seq<seq<Message>>,
                          current: seq<Message>, group: seq<Message>, size: nat, max: nat) {
    && Flatten(groups) + group == prefix
    && |chunks| == |groups|
    && (forall j | 0 <= j < |groups| :: IsChunk(chunks[j], groups[j], max))
    && current == PackedAll(group, max) && size == Total(group, max) <= max
  }

  lemma CloseChunk(prefix: seq<Message>, chunks: seq<seq<Message>>, groups: seq<seq<Message>>,
                   current: seq<Message>, group: seq<Message>, size: nat, max: nat)
    requires Partial(prefix, chunks, groups, current, group, size, max) && group != []
    ensures Partial(prefix, chunks + [current], groups + [group], [], [], 0, max)
  {
    FlattenAppend(groups, group);
  }

  lemma AddMessage(prefix: seq<Message>, chunks: seq<seq<Message>>, groups: seq<seq<Message>>,
                   current: seq<Message>, group: seq<Message>, size: nat, m: Message, max: nat)
    requires Partial(prefix, chunks, groups, current, group, size, max) && size + Counted(m, max) <= max
    ensures Partial(prefix + [m], chunks, groups, current + [Packed(m, max)], group + [m], size + Counted(m, max), max)
  {
    TotalAppend(group, m, max);
    PackedAppend(group, m, max);
    assert Flatten(groups) + (group + [m]) == prefix + [m];
  }

  /** Greedy stays ahead; with a bound of zero it opens a chunk for every message. */
  ghost predicate Frugal(prefix: seq<Message>, k: nat, size: nat, max: nat) {
    && (prefix == [] ==> k == 0 && size == 0)
    && (max > 0 && prefix != [] ==> size > 0 && Ahead(prefix, k, size, max))
    && (max == 0 && prefix != [] ==> k + 1 == |prefix|)
  }

  lemma FrugalNext(ms: seq<Message>, k: nat, size: nat, m: Message, max: nat)
    requires Frugal(ms, k, size, max) && size <= max
    ensures ms != [] && size + Size(m) > max ==> Frugal(ms + [m], k + 1, Counted(m, max), max)
    ensures ms == [] || size + Size(m) <= max ==> Frugal(ms + [m], k, size + Counted(m, max), max)
  {
    if max > 0 { AheadNext(ms, k, size, m, max); }
  }

  /** Everything the loop carries: the real chunks and sizes, and the source messages behind them. */
  ghost predicate Packing(prefix: seq<Message>, chunks: seq<seq<Message>>, groups: seq<seq<Message>>,
                          current: seq<Message>, group: seq<Message>, size: nat, max: nat) {
    && Partial(prefix, chunks, groups, current, group, size, max)
    && (group == [] <==> prefix == [])
    && Frugal(prefix, |groups|, size, max)
  }

  lemma NothingPacked(max: nat)
    ensures Packing([], [], [], [], [], 0, max)
  {
    assert Flatten<Message>([]) + [] == [];
  }

  lemma KeepGoing(prefix: seq<Message>, chunks: seq<seq<Message>>, groups: seq<seq<Message>>,
                  current: seq<Message>, group: seq<Message>, size: nat, m: Message, max: nat)
    requires Packing(prefix, chunks, groups, current, group, size, max)
    requires current == [] || size + Size(m) <= max
    ensures Packing(prefix + [m], chunks, groups, current + [Packed(m, max)], group + [m], size + Counted(m, max), max)
  {
    PackedAppend(group, m, max);
    FrugalNext(prefix, |groups|, size, m, max);
    AddMessage(prefix, chunks, groups, current, group, size, m, max);
  }

  lemma OpenNext(prefix: seq<Message>, chunks: seq<seq<Message>>, groups: seq<seq<Message>>,
                 current: seq<Message>, group: seq<Message>, size: nat, m: Message, max: nat)
    requires Packing(prefix, chunks, groups, current, group, size, max)
    requires current != [] && size + Size(m) > max
    ensures Packing(prefix + [m], chunks + [current], groups + [group], [Packed(m, max)], [m], Counted(m, max), max)
  {
    PackedAppend(group, m, max);
    FrugalNext(prefix, |groups|, size, m, max);
    CloseChunk(prefix, chunks, groups, current, group, size, max);
    AddMessage(prefix, chunks + [current], groups + [group], [], [], 0, m, max);
    assert [] + [m] == [m] && [] + [Packed(m, max)] == [Packed(m, max)];
  }

  /** The loop, up to the chunk still open at the end. */
  method PackGreedily(messages: seq<Message>, max: nat)
      returns (chunks: seq<seq<Message>>, current: seq<Message>, ghost groups: seq<seq<Message>>, ghost group: seq<Message>, ghost used: nat)
    ensures Packing(messages, chunks, groups, current, group, used, max)
  {
    chunks, groups, current, group := [], [], [], [];
    var size: nat := 0;
    NothingPacked(max);
    ghost var prefix: seq<Message> := [];
    for i := 0 to |messages|
      invariant prefix == messages[..i]
      invariant Packing(prefix, chunks, groups, current, group, size, max)
    {
      chunks, current, size, groups, group := PackOne(prefix, messages[i], max, chunks, current, size, groups, group);
      prefix := prefix + [messages[i]];
    }
    assert prefix == messages;
    used := size;
  }

  /** The loop body. */
  method PackOne(ghost prefix: seq<Message>, message: Message, max: nat, chunks: seq<seq<Message>>, current: seq<Message>,
                 size: nat, ghost groups: seq<seq<Message>>, ghost group: seq<Message>)
      returns (chunks': seq<seq<Message>>, current': seq<Message>, size': nat,
               ghost groups': seq<seq<Message>>, ghost group': seq<Message>)
    requires Packing(prefix, chunks, groups, current, group, size, max)
    ensures Packing(prefix + [message], chunks', groups', current', group', size', max)
  {
    chunks', current', size', groups', group' := chunks, current, size, groups, group;
    var messageSize := Size(message);
    if current != [] && size + messageSize > max {
      OpenNext(prefix, chunks, groups, current, group, size, message, max);
      chunks', groups' := chunks + [current], groups + [group];
      current', group', size' := [], [], 0;
    } else {
      KeepGoing(prefix, chunks, groups, current, group, size, message, max);
    }
    var item := message;
    if messageSize > max {
      item := message.(text := Slice(message.text, max - 200) + MARKER);
      messageSize := max;
    }
    current' := current' + [item];
    group' := group' + [message];
    size' := size' + messageSize;
  }

  /** The chunks are the messages of a split, in order and each as it belongs. */
  ghost predicate Chunked(messages: seq<Message>, chunks: seq<seq<Message>>, groups: seq<seq<Message>>, max: nat) {
    && Splits(groups, messages, max)
    && AllBelong(messages, Flatten(chunks), max)
    && |chunks| == |groups| && forall i | 0 <= i < |groups| :: AllBelong(groups[i], chunks[i], max)
  }

  /** No split of the messages has fewer groups. */
  ghost predicate Fewest(messages: seq<Message>, count: nat, max: nat) {
    forall other | Splits(other, messages, max) :: count <= |other|
  }

  lemma AllChunked(messages: seq<Message>, chunks: seq<seq<Message>>, groups: seq<seq<Message>>, max: nat)
    requires Splits(groups, messages, max) && |chunks| == |groups|
    requires forall i | 0 <= i < |groups| :: chunks[i] == PackedAll(groups[i], max)
    ensures Chunked(messages, chunks, groups, max)
  {
    ChunksKeepOrder(groups, messages, chunks, max);
  }

  /** The last chunk completes the split. */
  lemma LastChunk(messages: seq<Message>, chunks: seq<seq<Message>>, groups: seq<seq<Message>>,
                  current: seq<Message>, group: seq<Message>, used: nat, max: nat)
    requires Packing(messages, chunks, groups, current, group, used, max) && current != []
    ensures messages != [] && Chunked(messages, chunks + [current], groups + [group], max)
    ensures max > 0 ==> Fewest(messages, |chunks| + 1, max)
    ensures max == 0 ==> |chunks| + 1 == |messages|
    ensures forall g | g in groups + [group] :: g != []
  {
    PackedAppend(group, Message(0, ""), max);
    CloseChunk(messages, chunks, groups, current, group, used, max);
    assert Flatten(groups + [group]) + [] == messages;
    assert forall i | 0 <= i < |groups + [group]| :: IsChunk((chunks + [current])[i], (groups + [group])[i], max);
    AllChunked(messages, chunks + [current], groups + [group], max);
  }

  /** With nothing in the last chunk there was no message, and one empty chunk splits it. */
  lemma NoMessages(messages: seq<Message>, chunks: seq<seq<Message>>, groups: seq<seq<Message>>, group: seq<Message>, used: nat, max: nat)
    requires Packing(messages, chunks, groups, [], group, used, max)
    ensures messages == [] && Chunked([], [[]], [[]], max)
  {
    PackedAppend(group, Message(0, ""), max);
    FlattenAppend(groups, group);
    assert groups == [];
    FlattenAppend<Message>([], []);
    var none: seq<seq<Message>> := [[]];
    assert [] + [[]] == none;
    AllChunked([], none, none, max);
  }

  /** `groups` names the source messages behind each chunk. */
  method MessageChunks(messages: seq<Message>, max: nat) returns (chunks: seq<seq<Message>>, ghost groups: seq<seq<Message>>)
    ensures Chunked(messages, chunks, groups, max)
    ensures messages == [] ==> chunks == [[]] && groups == [[]]
    ensures messages != [] ==> forall g | g in groups :: g != []
    ensures max > 0 && messages != [] ==> Fewest(messages, |chunks|, max)
    ensures max == 0 && messages != [] ==> |chunks| == |messages|
  {
    var current;
    ghost var group, used;
    chunks, current, groups, group, used := PackGreedily(messages, max);
    if current != [] {
      LastChunk(messages, chunks, groups, current, group, used, max);
      chunks := chunks + [current];
      groups := groups + [group];
    } else {
      NoMessages(messages, chunks, groups, group, used, max);
      chunks, groups := [[]], [[]];
    }
  }

  /** At a bound of zero the count is one chunk per message although a single group would fit: an oversized
      message is compared by its real size but counted as zero. */
  lemma ZeroBoundIsNotOptimal(messages: seq<Message>)
    ensures Splits([messages], messages, 0)
  {
    assert [messages][..0] == [];
    assert Flatten([messages]) == Flatten<Message>([]) + messages == messages;
    ZeroTotal(messages);
  }

  lemma {:induction false} ZeroTotal(ms: seq<Message>)
    ensures Total(ms, 0) == 0
  {
    if ms != [] { ZeroTotal(ms[..|ms| - 1]); }
  }

  /** The chunks hold the messages in order, nothing but oversized texts shortened. */
  lemma {:induction false} ChunksKeepOrder(groups: seq<seq<Message>>, messages: seq<Message>, chunks: seq<seq<Message>>, max: nat)
    requires Flatten(groups) == messages && |chunks| == |groups|
    requires forall i | 0 <= i < |groups| :: chunks[i] == PackedAll(groups[i], max)
    ensures Flatten(chunks) == PackedAll(messages, max)
    ensures AllBelong(messages, Flatten(chunks), max)
    ensures forall i | 0 <= i < |groups| :: AllBelong(groups[i], chunks[i], max)
    decreases |groups|
  {
    PackedAllBelong(messages, max);
    forall i | 0 <= i < |groups| ensures AllBelong(groups[i], chunks[i], max) { PackedAllBelong(groups[i], max); }
    if groups != [] {
      var n := |groups| - 1;
      ChunksKeepOrder(groups[..n], Flatten(groups[..n]), chunks[..n], max);
      PackedConcat(Flatten(groups[..n]), groups[n], max);
    }
  }
}
