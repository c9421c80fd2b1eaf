/** The DRAM backend: the same interface as the RDMA driver, served synchronously from one flat
    buffer (code/drivers/fastswap_dram.c behind code/drivers/fastswap.c). */
module DramBackend {
  import opened Addressing
  import opened PageStore
  import opened Accounting
  import opened Coherence
  import opened Refinement

  class Dram {
    const buf: array<byte>

    constructor (size: nat)
      ensures fresh(buf) && buf.Length == size && forall i | 0 <= i < size :: buf[i] == 0
    {
      buf := new byte[size](_ => 0);
    }

    ghost function View(): (r: seq<Contents>)
      reads this, buf
    {
      Slots(buf[..])
    }

    /** sswap_rdma_write at pageid << PAGE_SHIFT: copy_page into the buffer. The shift drops the
        high bits, so page ids that agree modulo 2^52 share a slot. */
    method Write(pageid: nat, page: Page) returns (ret: int)
      requires Fits(pageid, buf.Length) && |page.contents| == PAGE_SIZE
      modifies buf
      ensures ret == 0 && pageid % TWO_52 < |old(View())|
      ensures View() == old(View())[pageid % TWO_52 := page.contents]
    {
      OffsetWraps(pageid);
      var off := RemoteOffset(pageid);
      ghost var slot := pageid % TWO_52;
      CopyPage(off, page.contents);
      WritePageIsSlotUpdate(old(buf[..]), slot, page.contents);
      assert buf[..] == WritePage(old(buf[..]), slot, page.contents);
      ret := 0;
    }

    method CopyPage(off: nat, c: Contents)
      requires off + PAGE_SIZE <= buf.Length && |c| == PAGE_SIZE
      modifies buf
      ensures buf[..] == old(buf[..off]) + c + old(buf[off + PAGE_SIZE..])
    {
      var i := 0;
      while i < PAGE_SIZE
        invariant 0 <= i <= PAGE_SIZE
        invariant forall k | 0 <= k < buf.Length ::
          buf[k] == if off <= k < off + i then c[k - off] else old(buf[k])
      {
        buf[off + i] := c[i];
        i := i + 1;
      }
    }

    /** sswap_rdma_read_async and sswap_rdma_read_sync: the page comes back filled, up to date and
        unlocked, before the call returns. */
    method Read(pageid: nat, page: Page) returns (ret: int, filled: Page)
      requires Fits(pageid, buf.Length)
      requires page.locked && !page.uptodate
      ensures ret == 0 && pageid % TWO_52 < |View()|
      ensures filled == Page(false, true, View()[pageid % TWO_52])
    {
      OffsetWraps(pageid);
      var off := RemoteOffset(pageid);
      filled := page.(contents := buf[off..off + PAGE_SIZE]);
      filled := filled.(uptodate := true);
      filled := filled.(locked := false);
      assert filled.contents == SlotAt(buf[..], pageid % TWO_52);
      ret := 0;
    }

    /** One operation of a history; a load delivers what the buffer holds. */
    method PerformOne(e: Event) returns (out: Event)
      requires e.slot < TWO_52 && Fits(e.slot, buf.Length) && |e.data| == PAGE_SIZE
      modifies buf
      ensures out == e.(data := out.data) && out.slot < |old(View())| == |View()|
      ensures out.data == if e.Stored? then e.data else old(View())[e.slot]
      ensures View() == DramAfter(old(View()), out)
    {
      SmallStays(e.slot, TWO_52);
      if e.Stored? {
        var _ := Write(e.slot, Page(true, false, e.data));
        out := e;
      } else {
        var _, page := Read(e.slot, Page(true, false, []));
        out := e.(data := page.contents);
      }
    }

    /** Run a history on the backend. The outcome is always accepted by the specification of
        Coherence, and a history that the specification accepts is reproduced unchanged: the
        histories of this backend are exactly those. */
    method Perform(history: seq<Event>) returns (log: seq<Event>)
      requires forall k | 0 <= k < |history| ::
        && history[k].slot < TWO_52 && Fits(history[k].slot, buf.Length)
        && |history[k].data| == PAGE_SIZE
      modifies buf
      ensures |log| == |history| && View() == Replay(old(View()), log)
      ensures DramAccepts(old(View()), log)
      ensures DramAccepts(old(View()), history) ==> log == history
    {
      ghost var init := View();
      log := [];
      var k := 0;
      while k < |history|
        invariant 0 <= k == |log| <= |history|
        invariant View() == Replay(init, log) && DramAccepts(init, log)
        invariant Agrees(init, history, log)
      {
        var out := PerformOne(history[k]);
        LogExtends(init, log, out);
        AgreesNext(init, history, log, out);
        log := log + [out];
        k := k + 1;
      }
      assert history[..k] == history;
    }

    /** What the clients of the RDMA driver saw in a disciplined run, done again on a DRAM backend
        that starts with the same contents: every load delivers the same data, and the buffer
        ends up with what far memory holds wherever no store is under way. */
    method ReproduceRun(ghost s0: State, ghost acts: seq<Action>, history: seq<Event>) returns (log: seq<Event>)
      requires IsDisciplinedRun(s0, acts) && history == Exec(s0, acts).value.log
      requires PageSized(s0) && WritesPages(acts) && View() == s0.remote && buf.Length <= TWO_64
      modifies buf
      ensures log == history
      ensures var s := Exec(s0, acts).value;
        |View()| == |s.remote| && forall slot | 0 <= slot < |s.remote| && SlotHasNoStore(s, slot) :: View()[slot] == s.remote[slot]
    {
      RdmaRefinesDram(s0, acts);
      EveryRunSized(s0, acts);
      forall k | 0 <= k < |history|
        ensures history[k].slot < TWO_52 && Fits(history[k].slot, buf.Length) && |history[k].data| == PAGE_SIZE
      {
        AcceptedPrefix(s0.remote, history, k);
        SlotFits(history[k].slot, buf.Length);
      }
      log := Perform(history);
    }
  }

  lemma SlotFits(slot: nat, size: nat)
    requires slot < size / PAGE_SIZE && size <= TWO_64
    ensures slot < TWO_52 && Fits(slot, size)
  {
    assert TWO_52 * PAGE_SIZE == TWO_64;
    OffsetExact(slot);
  }

  // ----- pages are pages

  /** Every page, every slot and everything stored or observed is one page long. */
  ghost predicate PageSized(s: State) {
    && (forall p | 0 <= p < |s.pages| :: |s.pages[p].contents| == PAGE_SIZE)
    && (forall p | 0 <= p < |s.remote| :: |s.remote[p]| == PAGE_SIZE)
    && (forall i | 0 <= i < |s.ops| && s.ops[i].kind == Store :: |s.ops[i].data| == PAGE_SIZE)
    && (forall k | 0 <= k < |s.log| :: |s.log[k].data| == PAGE_SIZE)
  }

  ghost predicate WritesPages(acts: seq<Action>) {
    forall k | 0 <= k < |acts| && acts[k].CpuWrite? :: |acts[k].data| == PAGE_SIZE
  }

  lemma AdvanceKeepsSize(s: State, i: nat, step: Step)
    requires Accounted(s) && PageSized(s) && i < |s.ops|
    requires StepEnabled(s.ops[i], step, s.pending[s.ops[i].queue])
    ensures PageSized(AdvanceOp(s, i, step))
  {
    assert Consistent(s.ops[i]);
  }

  lemma StepKeepsSize(s: State, a: Action)
    requires Accounted(s) && PageSized(s) && Enabled(s, a) && (a.CpuWrite? ==> |a.data| == PAGE_SIZE)
    ensures PageSized(Apply(s, a))
  {
    if a.Advance? { AdvanceKeepsSize(s, a.i, a.step); }
  }

  lemma {:induction false} EveryRunSized(s0: State, acts: seq<Action>)
    requires IsRun(s0, acts) && PageSized(s0) && WritesPages(acts)
    ensures PageSized(Exec(s0, acts).value)
  {
    if acts != [] {
      var before := acts[..|acts| - 1];
      EveryRunSized(s0, before);
      EveryRunAccounted(s0, before);
      StepKeepsSize(Exec(s0, before).value, acts[|acts| - 1]);
    }
  }

  /** If the specification accepts the history so far, the log repeats it. */
  ghost predicate Agrees(init: seq<Contents>, history: seq<Event>, log: seq<Event>) {
    |log| <= |history| && (DramAccepts(init, history[..|log|]) ==> log == history[..|log|])
  }

  lemma LogExtends(init: seq<Contents>, log: seq<Event>, e: Event)
    requires DramAccepts(init, log) && e.slot < |init|
    requires e.Loaded? ==> e.data == Replay(init, log)[e.slot]
    ensures DramAccepts(init, log + [e])
    ensures Replay(init, log + [e]) == DramAfter(Replay(init, log), e)
  {
    assert (log + [e])[..|log|] == log;
  }

  lemma AgreesNext(init: seq<Contents>, history: seq<Event>, log: seq<Event>, out: Event)
    requires Agrees(init, history, log) && |log| < |history|
    requires var e := history[|log|];
      && out == e.(data := out.data) && e.slot < |init|
      && out.data == if e.Stored? then e.data else Replay(init, log)[e.slot]
    ensures Agrees(init, history, log + [out])
  {
    var k := |log|;
    assert history[..k + 1][..k] == history[..k];
    if DramAccepts(init, history[..k + 1]) {
      assert history[..k + 1][k] == history[k];
      assert log + [out] == history[..k + 1];
    }
  }
}
