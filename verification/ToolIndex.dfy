/**
  Giving streamed tool-call fragments the right index.  Fragments of several
  calls arrive interleaved; the id of a call may come with its first fragment
  only, and providers repeat it on closing fragments that carry nothing else.
*/
module ToolIndex {
  import opened Prelude

  /** A fragment of a tool call; `id` is empty when the provider sends none. */
  datatype Frag = Frag(id: string, name: Option<string>, args: Option<string>, index: int)

  predicate Carries(f: Frag) { f.args.Some? || f.name.Some? }

  /** What the normaliser remembers between chunks. */
  datatype State = State(seen: map<string, nat>, next: nat, last: string)

  const START := State(map[], 0, "")

  // ----- one fragment, as a function --------------------------------------

  function After(s: State, f: Frag): State {
    if f.id != "" && f.id !in s.seen then State(s.seen[f.id := s.next], s.next + 1, f.id)
    else if f.id != "" && Carries(f) then s.(last := f.id)
    else s
  }

  /** The fragment as it is passed on, or nothing. */
  function Out(s: State, f: Frag): seq<Frag> {
    if f.id != "" && f.id !in s.seen then [f.(index := s.next)]
    else if f.id != "" then if Carries(f) then [f.(index := s.seen[f.id])] else []
    else if s.last != "" && s.last in s.seen then [f.(index := s.seen[s.last])]
    else [f]
  }

  function AfterAll(s: State, fs: seq<Frag>): State
    decreases |fs|
  {
    if fs == [] then s else After(AfterAll(s, fs[..|fs| - 1]), fs[|fs| - 1])
  }

  function OutAll(s: State, fs: seq<Frag>): seq<Frag>
    decreases |fs|
  {
    if fs == [] then [] else OutAll(s, fs[..|fs| - 1]) + Out(AfterAll(s, fs[..|fs| - 1]), fs[|fs| - 1])
  }

  /** The last id is one that has an index. */
  predicate LastIsSeen(s: State) { s.last != "" ==> s.last in s.seen }

  // ----- the class --------------------------------------------------------

  class Normalizer {
    var seenIds: map<string, nat>
    var nextIndex: nat
    var lastId: string

    constructor ()
      ensures Value() == START
    {
      seenIds, nextIndex, lastId := map[], 0, "";
    }

    function Value(): State reads this { State(seenIds, nextIndex, lastId) }

    /** `_patched_normalize` of one chunk's tool calls; None: the chunk is dropped. */
    method Normalize(calls: seq<Frag>) returns (out: Option<seq<Frag>>)
      requires LastIsSeen(Value())
      modifies this
      ensures LastIsSeen(Value()) && Value() == AfterAll(old(Value()), calls)
      ensures calls == [] ==> out == Some([])
      ensures calls != [] ==> out == if OutAll(old(Value()), calls) == [] then None else Some(OutAll(old(Value()), calls))
    {
      if calls == [] {
        return Some([]);
      }
      ghost var was := Value();
      var normalized: seq<Frag> := [];
      for i := 0 to |calls|
        invariant LastIsSeen(Value()) && Value() == AfterAll(was, calls[..i])
        invariant normalized == OutAll(was, calls[..i])
      {
        assert calls[..i + 1][..i] == calls[..i];
        var tc := calls[i];
        if tc.id != "" && tc.id !in seenIds {
          seenIds := seenIds[tc.id := nextIndex];
          tc := tc.(index := nextIndex);
          lastId := tc.id;
          nextIndex := nextIndex + 1;
          normalized := normalized + [tc];
        } else if tc.id != "" && tc.id in seenIds {
          if tc.args.Some? || tc.name.Some? {
            tc := tc.(index := seenIds[tc.id]);
            lastId := tc.id;
            normalized := normalized + [tc];
          }
        } else {
          if lastId != "" {
            tc := tc.(index := seenIds[lastId]);
          }
          normalized := normalized + [tc];
        }
      }
      assert calls[..|calls|] == calls;
      out := if normalized == [] then None else Some(normalized);
    }
  }

  // ----- whole runs -------------------------------------------------------

  lemma OneMoreFragment(s: State, fs: seq<Frag>, f: Frag)
    ensures AfterAll(s, fs + [f]) == After(AfterAll(s, fs), f)
    ensures OutAll(s, fs + [f]) == OutAll(s, fs) + Out(AfterAll(s, fs), f)
  {
    assert (fs + [f])[..|fs|] == fs;
  }

  lemma InitAndLast(fs: seq<Frag>)
    requires fs != []
    ensures fs == fs[..|fs| - 1] + [fs[|fs| - 1]]
  {
  }

  /** Chunk boundaries do not matter: a run over two chunks is the run over their fragments. */
  lemma {:induction false} RunsCompose(s: State, a: seq<Frag>, b: seq<Frag>)
    ensures AfterAll(s, a + b) == AfterAll(AfterAll(s, a), b)
    ensures OutAll(s, a + b) == OutAll(s, a) + OutAll(AfterAll(s, a), b)
    decreases |b|
  {
    if b == [] {
      assert a + b == a;
    } else {
      var init, f := b[..|b| - 1], b[|b| - 1];
      RunsCompose(s, a, init);
      InitAndLast(b);
      OneMoreFragment(s, a + init, f);
      OneMoreFragment(AfterAll(s, a), init, f);
      Associate(OutAll(s, a), OutAll(AfterAll(s, a), init), Out(AfterAll(s, a + init), f));
      assert a + b == (a + init) + [f];
    }
  }

  /** The ids of a stream, each once, in the order they first appear. */
  function Ids(fs: seq<Frag>): seq<string> {
    if fs == [] then []
    else
      var ids, f := Ids(fs[..|fs| - 1]), fs[|fs| - 1];
      if f.id != "" && f.id !in ids then ids + [f.id] else ids
  }

  /** The state numbers these ids, in this order and no others. */
  ghost predicate Numbers(s: State, ids: seq<string>) {
    && s.next == |ids|
    && (forall k :: 0 <= k < |ids| ==> ids[k] in s.seen && s.seen[ids[k]] == k)
    && (forall id :: id in s.seen <==> id in ids)
    && "" !in ids
  }

  /** Ids map one to one onto 0 .. next - 1, in first-seen order. */
  lemma {:induction false} IdsAreNumberedInOrder(fs: seq<Frag>)
    ensures var s := AfterAll(START, fs);
            && Numbers(s, Ids(fs)) && LastIsSeen(s)
            && forall a, b :: a in s.seen && b in s.seen && s.seen[a] == s.seen[b] ==> a == b
    decreases |fs|
  {
    if fs != [] {
      var init, f := fs[..|fs| - 1], fs[|fs| - 1];
      IdsAreNumberedInOrder(init);
      NumberOneMore(AfterAll(START, init), Ids(init), f);
    }
    NumberingIsInjective(AfterAll(START, fs), Ids(fs));
  }

  lemma NumberOneMore(s: State, ids: seq<string>, f: Frag)
    requires Numbers(s, ids) && LastIsSeen(s)
    ensures Numbers(After(s, f), if f.id != "" && f.id !in ids then ids + [f.id] else ids) && LastIsSeen(After(s, f))
  {
  }

  lemma NumberingIsInjective(s: State, ids: seq<string>)
    requires Numbers(s, ids)
    ensures forall a, b :: a in s.seen && b in s.seen && s.seen[a] == s.seen[b] ==> a == b
  {
    forall a, b | a in s.seen && b in s.seen && s.seen[a] == s.seen[b] ensures a == b {
      var i :| 0 <= i < |ids| && ids[i] == a;
      var j :| 0 <= j < |ids| && ids[j] == b;
    }
  }

  /** The fragments that carry a name or arguments, without their index. */
  function Payload(fs: seq<Frag>): seq<(string, Option<string>, Option<string>)> {
    if fs == [] then []
    else Payload(fs[..|fs| - 1]) + PayloadOf(fs[|fs| - 1])
  }

  function PayloadOf(f: Frag): seq<(string, Option<string>, Option<string>)> {
    if Carries(f) then [(f.id, f.name, f.args)] else []
  }

  lemma {:induction false} PayloadSnoc(fs: seq<Frag>, out: seq<Frag>)
    requires |out| <= 1
    ensures Payload(fs + out) == Payload(fs) + (if out == [] then [] else PayloadOf(out[0]))
  {
    if out == [] {
      assert fs + out == fs;
    } else {
      assert fs + out == fs + [out[0]];
      assert (fs + out)[..|fs|] == fs;
    }
  }

  lemma OutKeepsPayload(s: State, f: Frag)
    ensures |Out(s, f)| <= 1
    ensures (if Out(s, f) == [] then [] else PayloadOf(Out(s, f)[0])) == PayloadOf(f)
  {
  }

  /** Nothing that carries a name or arguments is ever dropped, changed or moved. */
  lemma {:induction false} NothingIsLost(s: State, fs: seq<Frag>)
    ensures Payload(OutAll(s, fs)) == Payload(fs)
    decreases |fs|
  {
    if fs != [] {
      var init, f := fs[..|fs| - 1], fs[|fs| - 1];
      InitAndLast(fs);
      NothingIsLost(s, init);
      OneMoreFragment(s, init, f);
      PayloadSnoc(init, [f]);
      PayloadSnoc(OutAll(s, init), Out(AfterAll(s, init), f));
      OutKeepsPayload(AfterAll(s, init), f);
    }
  }

  // ----- what is dropped ----------------------------------------------------

  lemma {:induction false} IdsAreThose(fs: seq<Frag>, id: string)
    ensures id in Ids(fs) <==> id != "" && exists i :: 0 <= i < |fs| && fs[i].id == id
    decreases |fs|
  {
    if fs != [] {
      IdsAreThose(fs[..|fs| - 1], id);
      assert forall i :: 0 <= i < |fs| - 1 ==> fs[..|fs| - 1][i] == fs[i];
    }
  }

  /**
    Exactly the closing fragments go: those with an id that came before and neither
    name nor arguments.  Any other is passed on as it came, but for its index.
  */
  lemma {:induction false} OnlyClosingFragmentsGo(fs: seq<Frag>, f: Frag)
    ensures var out := Out(AfterAll(START, fs), f);
            var closing := f.id != "" && (exists i :: 0 <= i < |fs| && fs[i].id == f.id) && f.name == None && f.args == None;
            if closing then out == [] else |out| == 1 && out[0] == f.(index := out[0].index)
  {
    IdsAreThose(fs, f.id);
    IdsAreNumberedInOrder(fs);
  }

  // ----- rebuilding the calls ---------------------------------------------

  /** The call the next id-less fragment belongs to: that of the last fragment passed on with an id. */
  function LastKept(fs: seq<Frag>): string {
    if fs == [] then ""
    else
      var init, f := fs[..|fs| - 1], fs[|fs| - 1];
      if f.id != "" && (f.id !in Ids(init) || Carries(f)) then f.id else LastKept(init)
  }

  function Text(f: Frag): string { if f.args.Some? then f.args.value else "" }

  /** A call's argument text in the input: its own fragments, and the id-less ones that follow them. */
  function CallText(fs: seq<Frag>, id: string): string {
    if fs == [] then ""
    else
      var init, f := fs[..|fs| - 1], fs[|fs| - 1];
      CallText(init, id) + (if (if f.id != "" then f.id else LastKept(init)) == id then Text(f) else "")
  }

  /** Text of id-less fragments that come before any id, by the index they came with. */
  function OrphanText(fs: seq<Frag>, k: int): string {
    if fs == [] then ""
    else
      var init, f := fs[..|fs| - 1], fs[|fs| - 1];
      OrphanText(init, k) + (if f.id == "" && LastKept(init) == "" && f.index == k then Text(f) else "")
  }

  /** What a client that groups by index reads. */
  function Grouped(out: seq<Frag>, k: int): string {
    if out == [] then ""
    else Grouped(out[..|out| - 1], k) + (if out[|out| - 1].index == k then Text(out[|out| - 1]) else "")
  }

  lemma GroupedSnoc(fs: seq<Frag>, out: seq<Frag>, k: int)
    requires |out| <= 1
    ensures Grouped(fs + out, k) == Grouped(fs, k) + (if out != [] && out[0].index == k then Text(out[0]) else "")
  {
    if out == [] {
      assert fs + out == fs;
    } else {
      assert (fs + out)[..|fs|] == fs;
    }
  }

  lemma {:induction false} LastIsLastKept(fs: seq<Frag>)
    ensures AfterAll(START, fs).last == LastKept(fs)
    ensures LastKept(fs) == "" <==> Ids(fs) == []
    ensures LastKept(fs) != "" ==> LastKept(fs) in Ids(fs)
    decreases |fs|
  {
    IdsAreNumberedInOrder(fs);
    if fs != [] {
      LastIsLastKept(fs[..|fs| - 1]);
      IdsAreNumberedInOrder(fs[..|fs| - 1]);
    }
  }

  /** The id numbered k, if there is one; no call has the empty id. */
  function IdAt(ids: seq<string>, k: int): string { if 0 <= k < |ids| then ids[k] else "" }

  /** What a fragment's output adds to group k is what the fragment adds to the call numbered k, or to the orphans. */
  lemma {:induction false} OneFragmentGroups(init: seq<Frag>, f: Frag, k: int)
    ensures var ids := Ids(init + [f]);
            var out := Out(AfterAll(START, init), f);
            var owner := if f.id != "" then f.id else LastKept(init);
            && |out| <= 1
            && (out == [] ==> Text(f) == "")
            && (out != [] ==> Text(out[0]) == Text(f))
            && (out != [] && owner != "" ==> (out[0].index == k <==> owner == IdAt(ids, k)))
            && (owner == "" ==> out == [f])
  {
    var ids := Ids(init + [f]);
    assert (init + [f])[..|init|] == init;
    IdsAreNumberedInOrder(init);
    IdsAreNumberedInOrder(init + [f]);
    LastIsLastKept(init);
    var owner := if f.id != "" then f.id else LastKept(init);
    if owner != "" && Out(AfterAll(START, init), f) != [] {
      OwnerIndex(AfterAll(START, init), Ids(init), f, owner);
      assert owner in ids;
      DistinctAt(AfterAll(START, init + [f]), ids, owner, k);
    }
  }

  lemma OwnerIndex(s: State, ids: seq<string>, f: Frag, owner: string)
    requires Numbers(s, ids) && LastIsSeen(s) && owner != "" && owner == (if f.id != "" then f.id else s.last)
    requires Out(s, f) != []
    ensures owner in After(s, f).seen && Out(s, f)[0].index == After(s, f).seen[owner]
  {
  }

  lemma DistinctAt(s: State, ids: seq<string>, id: string, k: int)
    requires Numbers(s, ids) && id in s.seen && id != ""
    ensures s.seen[id] == k <==> id == IdAt(ids, k)
  {
    var i :| 0 <= i < |ids| && ids[i] == id;
  }

  /** The text of ids that do not occur is empty. */
  lemma {:induction false} NoTextWithoutId(fs: seq<Frag>, id: string)
    requires id != "" && id !in Ids(fs)
    ensures CallText(fs, id) == ""
    decreases |fs|
  {
    if fs != [] {
      var init := fs[..|fs| - 1];
      NoTextWithoutId(init, id);
      LastIsLastKept(init);
    }
  }

  function CallAt(fs: seq<Frag>, k: int): string {
    if 0 <= k < |Ids(fs)| then CallText(fs, Ids(fs)[k]) else ""
  }

  lemma {:induction false} CallTextGrows(init: seq<Frag>, f: Frag, k: int)
    ensures var owner := if f.id != "" then f.id else LastKept(init);
            CallAt(init + [f], k)
            == CallAt(init, k) + (if owner != "" && owner == IdAt(Ids(init + [f]), k) then Text(f) else "")
    ensures f.id == "" && LastKept(init) == "" ==> CallAt(init + [f], k) == "" && CallAt(init, k) == ""
    ensures OrphanText(init + [f], k)
            == OrphanText(init, k) + (if f.id == "" && LastKept(init) == "" && f.index == k then Text(f) else "")
  {
    assert (init + [f])[..|init|] == init;
    LastIsLastKept(init);
    IdsAreNumberedInOrder(init + [f]);
    if k == |Ids(init)| && f.id != "" && f.id !in Ids(init) {
      NoTextWithoutId(init, f.id);
    }
  }

  lemma {:induction false} GroupGrows(init: seq<Frag>, f: Frag, k: int)
    ensures var owner := if f.id != "" then f.id else LastKept(init);
            Grouped(OutAll(START, init + [f]), k)
            == Grouped(OutAll(START, init), k)
               + (if (if owner != "" then owner == IdAt(Ids(init + [f]), k) else f.index == k) then Text(f) else "")
  {
    OneMoreFragment(START, init, f);
    OneFragmentGroups(init, f, k);
    GroupedSnoc(OutAll(START, init), Out(AfterAll(START, init), f), k);
  }

  /**
    Grouping the output by index rebuilds the calls: group k holds the argument
    text of the k-th call, exactly as it came in, after any text that came with
    this index before the first id.
  */
  lemma {:induction false} GroupsAreCalls(fs: seq<Frag>, k: int)
    ensures Grouped(OutAll(START, fs), k) == OrphanText(fs, k) + CallAt(fs, k)
    decreases |fs|
  {
    if fs != [] {
      var init, f := fs[..|fs| - 1], fs[|fs| - 1];
      InitAndLast(fs);
      GroupsAreCalls(init, k);
      var owner := if f.id != "" then f.id else LastKept(init);
      var orphan := if owner == "" && f.index == k then Text(f) else "";
      var own := if owner != "" && owner == IdAt(Ids(init + [f]), k) then Text(f) else "";
      GroupGrows(init, f, k);
      CallTextGrows(init, f, k);
      Joined(OrphanText(init, k), CallAt(init, k), orphan, own);
    }
  }

  lemma Joined(orphans: string, call: string, orphan: string, own: string)
    requires orphan == "" || (call == "" && own == "")
    ensures orphans + call + (if orphan == "" then own else orphan) == (orphans + orphan) + (call + own)
  {
  }
}
