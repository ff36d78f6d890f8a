/** The per-turn delta accumulator: how one streamed turn's chunks fold into a running text
    buffer and an index-keyed array of tool-call builders, and where the turn stops. */
module Accumulator {
  import opened Protocol

  function Max(a: nat, b: nat): nat {
    if a < b then b else a
  }

  /** The builder slot a fragment is merged into; a fragment without an index goes to slot 0. */
  function Slot(d: ToolCallDelta): nat {
    match d.index
    case None => 0
    case Some(i) => i
  }

  function ChunkDeltas(c: Chunk): seq<ToolCallDelta> {
    if c.Choice? then c.toolCalls else []
  }

  function ChunkText(c: Chunk): string {
    if c.Choice? then c.content else ""
  }

  /** Every tool-call fragment of the first `n` chunks, in arrival order. */
  function Deltas(cs: seq<Chunk>, n: nat): seq<ToolCallDelta>
    requires n <= |cs|
  {
    if n == 0 then [] else Deltas(cs, n - 1) + ChunkDeltas(cs[n - 1])
  }

  /** Every text delta of the first `n` chunks, concatenated in arrival order. */
  function Text(cs: seq<Chunk>, n: nat): string
    requires n <= |cs|
  {
    if n == 0 then "" else Text(cs, n - 1) + ChunkText(cs[n - 1])
  }

  // ---------------------------------------------------------------------------------------
  // Reference definition of the builders, one slot at a time

  /** Some fragment names slot `i`. */
  predicate Mentions(ds: seq<ToolCallDelta>, i: nat) {
    exists k :: 0 <= k < |ds| && Slot(ds[k]) == i
  }

  /** The length of the builders array: one past the largest slot named. */
  function Length(ds: seq<ToolCallDelta>): nat {
    if ds == [] then 0 else Max(Length(ds[..|ds| - 1]), Slot(ds[|ds| - 1]) + 1)
  }

  /** The id carried by the first fragment for slot `i`, the one that creates its builder. */
  function FirstId(ds: seq<ToolCallDelta>, i: nat): string {
    if ds == [] then ""
    else if Slot(ds[0]) == i then ds[0].id
    else FirstId(ds[1..], i)
  }

  /** The last non-empty name among the fragments for slot `i`, or "" when there is none. */
  function LastName(ds: seq<ToolCallDelta>, i: nat): string {
    if ds == [] then ""
    else if Slot(ds[|ds| - 1]) == i && ds[|ds| - 1].name != "" then ds[|ds| - 1].name
    else LastName(ds[..|ds| - 1], i)
  }

  /** The argument fragments for slot `i`, concatenated in arrival order. */
  function Arguments(ds: seq<ToolCallDelta>, i: nat): string {
    if ds == [] then ""
    else Arguments(ds[..|ds| - 1], i) + (if Slot(ds[|ds| - 1]) == i then ds[|ds| - 1].arguments else "")
  }

  function Merged(ds: seq<ToolCallDelta>, i: nat): ToolCall {
    ToolCall(FirstId(ds, i), LastName(ds, i), Arguments(ds, i))
  }

  /** The builders array after all of `ds`: a JavaScript array whose slot `i` holds the merged
      call when some fragment names `i`, and a hole (None) otherwise. */
  function Builders(ds: seq<ToolCallDelta>): seq<Option<ToolCall>> {
    seq(Length(ds), i requires 0 <= i => if Mentions(ds, i) then Some(Merged(ds, i)) else None)
  }

  /** JavaScript's `a[i] = x`: writing past the end extends the array with holes. */
  function Store(a: seq<Option<ToolCall>>, i: nat, x: ToolCall): (r: seq<Option<ToolCall>>)
    ensures |r| == Max(|a|, i + 1) && r[i] == Some(x)
    ensures forall j :: 0 <= j < |r| && j != i ==> r[j] == if j < |a| then a[j] else None
  {
    if i < |a| then a[i := Some(x)] else a + seq(i - |a|, _ => None) + [Some(x)]
  }

  lemma MentionsSnoc(ds: seq<ToolCallDelta>, d: ToolCallDelta, i: nat)
    ensures Mentions(ds + [d], i) <==> Mentions(ds, i) || Slot(d) == i
  {
    if Mentions(ds, i) {
      var k :| 0 <= k < |ds| && Slot(ds[k]) == i;
      assert (ds + [d])[k] == ds[k];
    }
    if Slot(d) == i {
      assert (ds + [d])[|ds|] == d;
    }
    if Mentions(ds + [d], i) {
      var k :| 0 <= k < |ds + [d]| && Slot((ds + [d])[k]) == i;
      if k < |ds| {
        assert (ds + [d])[k] == ds[k];
      }
    }
  }

  /** The array is exactly as long as the largest slot named requires. */
  lemma LengthBounds(ds: seq<ToolCallDelta>)
    ensures forall i: nat :: Mentions(ds, i) ==> i < Length(ds)
    ensures Length(ds) > 0 ==> Mentions(ds, Length(ds) - 1)
    ensures Length(ds) == 0 <==> ds == []
  {
    MentionsBelowLength(ds);
    LastSlotMentioned(ds);
  }

  lemma {:induction false} MentionsBelowLength(ds: seq<ToolCallDelta>)
    ensures forall i: nat :: Mentions(ds, i) ==> i < Length(ds)
  {
    if ds != [] {
      var init, d := ds[..|ds| - 1], ds[|ds| - 1];
      assert ds == init + [d];
      MentionsBelowLength(init);
      forall i: nat | Mentions(ds, i) ensures i < Length(ds) {
        MentionsSnoc(init, d, i);
      }
    }
  }

  lemma {:induction false} LastSlotMentioned(ds: seq<ToolCallDelta>)
    ensures Length(ds) > 0 ==> Mentions(ds, Length(ds) - 1)
    ensures Length(ds) == 0 <==> ds == []
  {
    if ds != [] {
      var init, d := ds[..|ds| - 1], ds[|ds| - 1];
      assert ds == init + [d];
      LastSlotMentioned(init);
      MentionsSnoc(init, d, Length(ds) - 1);
    }
  }

  lemma {:induction false} FirstIdSnoc(ds: seq<ToolCallDelta>, d: ToolCallDelta, i: nat)
    ensures FirstId(ds + [d], i) == if Mentions(ds, i) then FirstId(ds, i) else if Slot(d) == i then d.id else ""
    ensures !Mentions(ds, i) ==> FirstId(ds, i) == ""
  {
    if ds == [] {
      assert !Mentions(ds, i);
      assert (ds + [d])[1..] == [];
    } else {
      assert (ds + [d])[0] == ds[0];
      assert (ds + [d])[1..] == ds[1..] + [d];
      FirstIdSnoc(ds[1..], d, i);
      if Slot(ds[0]) != i {
        if Mentions(ds, i) {
          var k :| 0 <= k < |ds| && Slot(ds[k]) == i;
          assert ds[1..][k - 1] == ds[k];
        }
        if Mentions(ds[1..], i) {
          var k :| 0 <= k < |ds[1..]| && Slot(ds[1..][k]) == i;
          assert ds[k + 1] == ds[1..][k];
        }
      } else {
        assert Mentions(ds, i) by { assert Slot(ds[0]) == i; }
      }
    }
  }

  /** Merging one more fragment into a slot: a new builder takes the fragment's id, name and
      arguments; an existing one keeps its id, takes a non-empty name and appends the arguments. */
  lemma MergedSnoc(ds: seq<ToolCallDelta>, d: ToolCallDelta)
    ensures var i := Slot(d);
      Merged(ds + [d], i) ==
        if Mentions(ds, i) then
          ToolCall(Merged(ds, i).id,
                   if d.name != "" then d.name else Merged(ds, i).name,
                   Merged(ds, i).arguments + d.arguments)
        else ToolCall(d.id, d.name, d.arguments)
  {
    var i := Slot(d);
    assert (ds + [d])[..|ds|] == ds;
    FirstIdSnoc(ds, d, i);
    if !Mentions(ds, i) {
      NoMentionEmpty(ds, i);
    }
  }

  lemma {:induction false} NoMentionEmpty(ds: seq<ToolCallDelta>, i: nat)
    requires !Mentions(ds, i)
    ensures LastName(ds, i) == "" && Arguments(ds, i) == ""
  {
    if ds != [] {
      var init := ds[..|ds| - 1];
      forall k | 0 <= k < |init| ensures Slot(init[k]) != i {
        assert init[k] == ds[k];
      }
      assert Slot(ds[|ds| - 1]) != i;
      NoMentionEmpty(init, i);
    }
  }

  /** A fragment for another slot leaves a slot's merged call as it was. */
  lemma MergedOther(ds: seq<ToolCallDelta>, d: ToolCallDelta, j: nat)
    requires Slot(d) != j
    ensures Merged(ds + [d], j) == Merged(ds, j)
  {
    assert (ds + [d])[..|ds|] == ds;
    FirstIdSnoc(ds, d, j);
    if !Mentions(ds, j) {
      NoMentionEmpty(ds, j);
    }
  }

  /** Once a slot has a builder, later fragments never change its id. */
  lemma {:induction false} FirstIdStable(ds: seq<ToolCallDelta>, more: seq<ToolCallDelta>, i: nat)
    requires Mentions(ds, i)
    ensures FirstId(ds + more, i) == FirstId(ds, i)
    decreases |more|
  {
    if more != [] {
      var init := more[..|more| - 1];
      assert ds + more == (ds + init) + [more[|more| - 1]];
      FirstIdStable(ds, init, i);
      var k :| 0 <= k < |ds| && Slot(ds[k]) == i;
      assert (ds + init)[k] == ds[k];
      assert Mentions(ds + init, i);
      FirstIdSnoc(ds + init, more[|more| - 1], i);
    } else {
      assert ds + more == ds;
    }
  }

  /** A slot's arguments are its earlier arguments followed by the later ones: nothing is
      reordered or dropped. */
  lemma {:induction false} ArgumentsAppend(ds: seq<ToolCallDelta>, more: seq<ToolCallDelta>, i: nat)
    ensures Arguments(ds + more, i) == Arguments(ds, i) + Arguments(more, i)
    decreases |more|
  {
    if more == [] {
      assert ds + more == ds;
    } else {
      var init := more[..|more| - 1];
      assert (ds + more)[..|ds + more| - 1] == ds + init;
      ArgumentsAppend(ds, init, i);
    }
  }

  /** A slot's name is the last non-empty name of the later fragments, or the earlier name
      when they carry none. */
  lemma {:induction false} LastNameAppend(ds: seq<ToolCallDelta>, more: seq<ToolCallDelta>, i: nat)
    ensures LastName(ds + more, i) == if LastName(more, i) != "" then LastName(more, i) else LastName(ds, i)
    decreases |more|
  {
    if more == [] {
      assert ds + more == ds;
    } else {
      var init := more[..|more| - 1];
      assert (ds + more)[..|ds + more| - 1] == ds + init;
      LastNameAppend(ds, init, i);
    }
  }

  /** One step of the chunk loop's inner loop (the body of `for (const toolCallDelta of
      delta.tool_calls)`): takes the builders array for `ds` to the one for `ds + [d]`. */
  method AddToolCallFragment(slots: seq<Option<ToolCall>>, d: ToolCallDelta, ghost ds: seq<ToolCallDelta>)
    returns (r: seq<Option<ToolCall>>)
    requires slots == Builders(ds)
    ensures r == Builders(ds + [d])
  {
    var index := Slot(d);
    r := slots;
    if index >= |r| || r[index].None? {
      r := Store(r, index, ToolCall(d.id, d.name, ""));
    }
    ghost var created := r;
    if d.name != "" {
      r := r[index := Some(r[index].value.(name := d.name))];
    }
    if d.arguments != "" {
      r := r[index := Some(r[index].value.(arguments := r[index].value.arguments + d.arguments))];
    }
    BuildersSnoc(ds, d);
    var b' := Builders(ds + [d]);
    assert |r| == |created| == |b'|;
    forall j | 0 <= j < |r| ensures r[j] == b'[j] {
      if j != index {
        assert r[j] == created[j];
      } else {
        var c := created[index].value;
        assert r[index].value.id == c.id;
        assert r[index].value.name == if d.name != "" then d.name else c.name;
        assert r[index].value.arguments == c.arguments + d.arguments;
      }
    }
  }

  /** How one more fragment changes the builders array: its slot is created (extending the
      array with holes) or updated, and every other slot is left as it was. */
  lemma BuildersSnoc(ds: seq<ToolCallDelta>, d: ToolCallDelta)
    ensures var b, b', i := Builders(ds), Builders(ds + [d]), Slot(d);
      && |b'| == Max(|b|, i + 1)
      && (forall j :: 0 <= j < |b'| && j != i ==> b'[j] == if j < |b| then b[j] else None)
      && b'[i] == Some(
           if i < |b| && b[i].Some? then
             ToolCall(b[i].value.id, if d.name != "" then d.name else b[i].value.name, b[i].value.arguments + d.arguments)
           else ToolCall(d.id, d.name, d.arguments))
  {
    var b, b', i := Builders(ds), Builders(ds + [d]), Slot(d);
    var ds' := ds + [d];
    assert ds'[..|ds|] == ds;
    LengthBounds(ds);
    MentionsSnoc(ds, d, i);
    MergedSnoc(ds, d);
    forall j | 0 <= j < |b'| && j != i
      ensures b'[j] == if j < |b| then b[j] else None
    {
      MentionsSnoc(ds, d, j);
      MergedOther(ds, d, j);
    }
  }

  // ---------------------------------------------------------------------------------------
  // The content events of a turn

  /** The content events the first `n` chunks raise: one per non-empty text delta, carrying
      the delta and the running text after it. */
  function ContentEvents(cs: seq<Chunk>, n: nat): seq<Event>
    requires n <= |cs|
  {
    if n == 0 then [] else ContentEvents(cs, n - 1) + ChunkEvents(cs, n - 1)
  }

  /** The content event chunk `k` raises, if any. */
  function ChunkEvents(cs: seq<Chunk>, k: nat): seq<Event>
    requires k < |cs|
  {
    if ChunkText(cs[k]) != "" then [ContentEvent(ChunkText(cs[k]), Text(cs, k + 1))] else []
  }

  /** What a client rebuilds from an event stream: the deltas of its content events, in order. */
  function StreamedText(evs: seq<Event>): string {
    if evs == [] then ""
    else StreamedText(evs[..|evs| - 1]) + (if evs[|evs| - 1].ContentEvent? then evs[|evs| - 1].delta else "")
  }

  /** The deltas of the content events of a turn's first `n` chunks, in order, spell the
      text of those chunks. */
  lemma {:induction false} ContentEventsSpellText(cs: seq<Chunk>, n: nat)
    requires n <= |cs|
    ensures StreamedText(ContentEvents(cs, n)) == Text(cs, n)
  {
    if n > 0 {
      ContentEventsSpellText(cs, n - 1);
      var t := ChunkText(cs[n - 1]);
      if t == "" {
        assert ContentEvents(cs, n) == ContentEvents(cs, n - 1);
      } else {
        StreamedTextSnoc(ContentEvents(cs, n - 1), ContentEvent(t, Text(cs, n)));
      }
    }
  }

  /** One more event adds its delta, if it is a content event. */
  lemma StreamedTextSnoc(evs: seq<Event>, e: Event)
    ensures StreamedText(evs + [e]) == StreamedText(evs) + (if e.ContentEvent? then e.delta else "")
  {
    assert (evs + [e])[..|evs|] == evs;
  }

  /** The running text only grows. */
  lemma {:induction false} TextPrefix(cs: seq<Chunk>, m: nat, n: nat)
    requires m <= n <= |cs|
    ensures Text(cs, m) <= Text(cs, n)
    decreases n
  {
    if m < n {
      TextPrefix(cs, m, n - 1);
    }
  }

  /** `e` is a content event with a non-empty delta, whose running text ends with that delta
      and is a prefix of `text`. */
  ghost predicate RunningEvent(e: Event, text: string) {
    e.ContentEvent? && e.delta != "" && EndsWith(e.accumulated, e.delta) && e.accumulated <= text
  }

  /** Every content event of a turn carries a non-empty delta and the running text, which ends
      with that delta and is a prefix of the text of all the chunks read. */
  lemma {:induction false} ContentEventsRunning(cs: seq<Chunk>, n: nat)
    requires n <= |cs|
    ensures forall e :: e in ContentEvents(cs, n) ==> RunningEvent(e, Text(cs, n))
  {
    if n > 0 {
      var prev, tail := ContentEvents(cs, n - 1), ChunkEvents(cs, n - 1);
      var text := Text(cs, n);
      ContentEventsRunning(cs, n - 1);
      TextPrefix(cs, n - 1, n);
      assert ContentEvents(cs, n) == prev + tail;
      forall e | e in prev + tail
        ensures RunningEvent(e, text)
      {
        if e in prev {
          assert RunningEvent(e, Text(cs, n - 1));
        } else {
          var t := ChunkText(cs[n - 1]);
          assert e == ContentEvent(t, text);
          assert text == Text(cs, n - 1) + t;
          assert text[|text| - |t|..] == t;
        }
      }
    }
  }

  // ---------------------------------------------------------------------------------------
  // Where a turn stops

  /** Chunk `k` ends the turn as a tool turn: its finish reason is `tool_calls` and the
      builders array built so far is not empty. */
  predicate StopsAt(cs: seq<Chunk>, k: nat)
    requires k < |cs|
  {
    cs[k].Choice? && cs[k].finishReason == Some(ToolCallsFinish) && Length(Deltas(cs, k + 1)) > 0
  }

  /** The first chunk at or after `from` that ends the turn as a tool turn, if any. */
  function FirstStop(cs: seq<Chunk>, from: nat): (r: Option<nat>)
    requires from <= |cs|
    ensures r.Some? ==> from <= r.value < |cs| && StopsAt(cs, r.value)
    ensures forall j :: from <= j < |cs| && (r.None? || j < r.value) ==> !StopsAt(cs, j)
    decreases |cs| - from
  {
    if from == |cs| then None
    else if StopsAt(cs, from) then Some(from)
    else FirstStop(cs, from + 1)
  }

  /** How a turn ends: with the builders array of a tool turn (its text is dropped), with its
      text, or with the stream's fault. */
  datatype TurnEnd =
    | ToolTurn(slots: seq<Option<ToolCall>>)
    | Completed(text: string)
    | Faulted(error: string)

  function TurnSpec(t: Turn): TurnEnd {
    match FirstStop(t.chunks, 0)
    case Some(k) => ToolTurn(Builders(Deltas(t.chunks, k + 1)))
    case None => if t.fault.Some? then Faulted(t.fault.value) else Completed(Text(t.chunks, |t.chunks|))
  }

  /** How many chunks of the turn are read: none after the one that ends a tool turn. */
  function Consumed(t: Turn): (n: nat)
    ensures n <= |t.chunks|
  {
    match FirstStop(t.chunks, 0)
    case Some(k) => k + 1
    case None => |t.chunks|
  }

  lemma {:induction false} DeltasPrefix(cs: seq<Chunk>, m: nat, n: nat)
    requires m <= n <= |cs|
    ensures Deltas(cs, m) <= Deltas(cs, n)
    decreases n
  {
    if m < n {
      DeltasPrefix(cs, m, n - 1);
    }
  }

  /** A turn without any tool-call fragment never ends as a tool turn, whatever its finish
      reasons say: `tool_calls` with no calls falls through to plain completion. */
  lemma NoFragmentsNoToolTurn(t: Turn)
    requires Deltas(t.chunks, |t.chunks|) == []
    ensures TurnSpec(t) == if t.fault.Some? then Faulted(t.fault.value) else Completed(Text(t.chunks, |t.chunks|))
    ensures Consumed(t) == |t.chunks|
  {
    if FirstStop(t.chunks, 0).Some? {
      var k := FirstStop(t.chunks, 0).value;
      DeltasPrefix(t.chunks, k + 1, |t.chunks|);
      LengthBounds(Deltas(t.chunks, k + 1));
      assert false;
    }
  }

  /** A tool turn's builders array is never empty and its last slot is filled. */
  lemma ToolTurnNonEmpty(t: Turn)
    requires TurnSpec(t).ToolTurn?
    ensures |TurnSpec(t).slots| > 0 && TurnSpec(t).slots[|TurnSpec(t).slots| - 1].Some?
  {
    var k := FirstStop(t.chunks, 0).value;
    LengthBounds(Deltas(t.chunks, k + 1));
  }
}
