/** The resumable file protocol as a whole (src/peer/pipes.cpp:165-395): a sender, a
    receiver and its disk, and the two byte streams between them. The link may be cut at
    any moment and the receiver run again on the disk it left. */
module Transfer {
  import opened Wrappers
  import opened TransferEntry
  import opened FileLines
  import opened BitFacts
  import Crc32
  import Text
  import S = ShareFile
  import G = GetFile

  /** `toGet` is what the sender has written and the receiver not yet read; of what the
      receiver has written (`g.out`) the sender has read the first `taken` bytes. `past`
      holds the destinations published in earlier runs. */
  datatype World = World(s: S.Share, g: G.Get, toGet: string, taken: nat, past: set<string>)

  /** The answers on their way to the sender. */
  function ToShare(w: World): string {
    if w.taken <= |w.g.out| then w.g.out[w.taken..] else ""
  }

  datatype Action =
    | Deliver(n: nat)              // the receiver gets up to n more bytes, as one piece
    | Reply(n: nat, budget: nat)   // the sender gets up to n bytes of answers
    | Writable(budget: nat)        // the tunnel has room for `budget` chunks
    | CutAndRerun(overwrite: bool) // the link drops; the get is run again

  function Fresh(j: Job, overwrite: bool, disk: G.Disk, past: set<string>): World {
    World(S.Fresh(j.entries), G.Fresh(j.target, overwrite, disk), "", 0, past)
  }

  function Sent(w: World, p: S.Pumped): World {
    w.(s := p.s, toGet := w.toGet + p.bytes)
  }

  function Act(j: Job, w: World, a: Action): World {
    match a
    case Deliver(n) =>
      var m := Least(n, |w.toGet|);
      w.(g := G.FeedAll(w.g, w.toGet[..m]), toGet := w.toGet[m..])
    case Reply(n, budget) =>
      var b := ToShare(w);
      var m := Least(n, |b|);
      Sent(w.(taken := w.taken + m), S.OnData(w.s, b[..m], budget))
    case Writable(budget) => Sent(w, S.Pump(w.s, budget))
    case CutAndRerun(overwrite) => Fresh(j, overwrite, G.OnClosed(w.g).disk, w.past + w.g.published)
  }

  function Run(j: Job, w: World, actions: seq<Action>): World
    decreases |actions|
  {
    if actions == [] then w else Run(j, Act(j, w, actions[0]), actions[1..])
  }

  // ---- the invariant ----

  /** What the sender says at the start of entry k, or after the last one. */
  function Message(j: Job, k: nat): string {
    if Has(j, k) then S.OfferOf(j.entries[k]) else S.END_MESSAGE
  }

  /** Between entries, before message k. */
  ghost predicate Between(j: Job, g: G.Get, k: nat) {
    G.Running(g) && g.state == G.Header && g.target == j.target && g.files == k
  }

  ghost predicate Inside(j: Job, g: G.Get, k: nat) {
    Has(j, k) && At(j, g, k, g.got) && g.got < |Content(j, k)| && g.files == k
  }

  /** Everything up to and including message k is on its way, and nothing else. */
  ghost predicate Ahead(j: Job, w: World, k: nat) {
    || (Between(j, w.g, k) && w.toGet != "" && w.g.hdr + w.toGet == Message(j, k))
    || (k > 0 && Inside(j, w.g, k - 1) && w.toGet == Content(j, k - 1)[w.g.got..] + Message(j, k))
  }

  /** The receiver has answered offer k; the sender has part of the answer already. */
  ghost predicate Asked(j: Job, w: World, k: nat) {
    && w.toGet == "" && Has(j, k)
    && (|| (Inside(j, w.g, k) && w.s.rbuf + ToShare(w) == ResumeLine(w.g.got) + "\n")
        || (Between(j, w.g, k + 1) && w.g.hdr == ""
            && w.s.rbuf + ToShare(w) == ResumeLine(|Content(j, k)|) + "\n"))
    && |w.s.rbuf| <= S.MAX_ANSWER && ToShare(w) != ""
  }

  /** The data of entry k is on its way, up to what the sender has read. */
  ghost predicate Flowing(j: Job, w: World, k: nat) {
    && Inside(j, w.g, k) && 0 < w.s.remaining <= |Content(j, k)|
    && w.g.got <= |Content(j, k)| - w.s.remaining
    && w.toGet == Content(j, k)[w.g.got..|Content(j, k)| - w.s.remaining]
  }

  ghost predicate Quiet(w: World) {
    w.s.rbuf == "" && ToShare(w) == ""
  }

  /** How the two ends and the streams stand while nothing has failed. */
  ghost predicate InStep(j: Job, w: World) {
    match w.s.state
    case Offering => w.s.idx == 0 && Quiet(w) && w.toGet == "" && Between(j, w.g, 0) && w.g.hdr == ""
    case WaitResume => Has(j, w.s.idx) && ((Quiet(w) && Ahead(j, w, w.s.idx)) || Asked(j, w, w.s.idx))
    case Streaming => Has(j, w.s.idx) && Quiet(w) && Flowing(j, w, w.s.idx)
    case Ending => false
    case Done => w.s.idx == |j.entries| && Quiet(w) && (Ahead(j, w, w.s.idx) || Finished(j, w.g))
  }

  predicate Finished(j: Job, g: G.Get) {
    g.done && g.err == G.NoError && g.files == |j.entries|
  }

  function SizesBefore(j: Job, k: nat): nat
    requires k <= |j.entries|
  {
    S.TotalSize(j.entries[..k])
  }

  /** The sender's books. */
  ghost predicate Booked(j: Job, s: S.Share) {
    && s.entries == j.entries && s.err == S.NoError && s.idx <= |j.entries|
    && s.total == S.TotalSize(j.entries)
    && (s.state == S.Streaming ==> Has(j, s.idx) && s.remaining <= |Content(j, s.idx)|)
    && s.sent == SizesBefore(j, s.idx) + if s.state == S.Streaming then |Content(j, s.idx)| - s.remaining else 0
  }

  function DestsBefore(j: Job, n: nat): set<string>
    requires n <= |j.entries|
  {
    set k: nat | k < n :: Dest(j, k)
  }

  ghost predicate DiskSafe(j: Job, w: World) {
    && Resumable(j, w.g.disk)
    && w.g.files <= |j.entries| && w.g.published == DestsBefore(j, w.g.files)
    && w.past <= DestsBefore(j, |j.entries|)
    && (forall k: nat :: Has(j, k) && Dest(j, k) in w.past + w.g.published ==> Delivered(j, w.g.disk, k))
  }

  ghost predicate Inv(j: Job, w: World) {
    && Good(j) && G.Sound(w.g) && DiskSafe(j, w) && w.taken <= |w.g.out|
    && (w.g.err == G.NoError ==> Booked(j, w.s) && InStep(j, w))
    && (w.g.err != G.NoError ==> Refused(w.g.err))
  }

  // ---- the sender ----

  /** Between answers the sender moves on through entry k: either it is still inside, or
      it has sent the rest and the next message. */
  ghost predicate Streamed(j: Job, s: S.Share, p: S.Pumped, k: nat)
    requires Has(j, k)
  {
    var all := Content(j, k);
    && s.remaining <= |all|
    && (|| (0 < p.s.remaining <= s.remaining && p.s == s.(remaining := p.s.remaining, sent := p.s.sent)
            && p.s.sent == s.sent + (s.remaining - p.s.remaining)
            && p.bytes == all[|all| - s.remaining..|all| - p.s.remaining])
        || (p.bytes == all[|all| - s.remaining..] + Message(j, k + 1)
            && p.s.sent == s.sent + s.remaining && p.s.idx == k + 1
            && p.s.state == (if Has(j, k + 1) then S.WaitResume else S.Done)
            && p.s.entries == s.entries && p.s.total == s.total && p.s.rbuf == s.rbuf && p.s.err == s.err))
  }

  lemma {:induction false} PumpStreams(j: Job, s: S.Share, budget: nat, k: nat)
    requires Good(j) && Has(j, k) && s.entries == j.entries && s.err == S.NoError
    requires s.state == S.Streaming && s.idx == k && s.remaining <= |Content(j, k)|
    ensures Streamed(j, s, S.Pump(s, budget), k)
    decreases s.remaining
  {
    hide S.Pump, S.OfferOf, S.NextChunk, Content, S.END_MESSAGE, Good, S.Before;
    var all := Content(j, k);
    S.PumpOnce(s, budget);
    if s.remaining == 0 {
      var t := s.(isOpen := false, idx := k + 1, state := S.Offering);
      S.PumpOnce(t, budget);
      S.PumpOnce(t.(state := S.Ending), budget);
      assert all[|all|..] + Message(j, k + 1) == Message(j, k + 1);
    } else if budget == 0 {
      assert all[|all| - s.remaining..|all| - s.remaining] == "";
    } else {
      ChunkFacts(j, s.remaining, k);
      var chunk := S.NextChunk(s.entries[k], s.remaining);
      var t := s.(remaining := s.remaining - |chunk|, sent := s.sent + |chunk|);
      PumpStreams(j, t, budget - 1, k);
      StreamedMore(j, s, t, S.Pump(t, budget - 1), k, chunk);
    }
  }

  lemma ChunkFacts(j: Job, remaining: nat, k: nat)
    requires Good(j) && Has(j, k) && 0 < remaining <= |Content(j, k)|
    ensures var chunk := S.NextChunk(j.entries[k], remaining);
            var all := Content(j, k);
            0 < |chunk| <= remaining && chunk == all[|all| - remaining..|all| - remaining + |chunk|]
  {
    EntryFacts(j, k);
    assert GoodEntry(j.entries[k]);
  }

  lemma StreamedMore(j: Job, s: S.Share, t: S.Share, p: S.Pumped, k: nat, chunk: string)
    requires Has(j, k) && Streamed(j, t, p, k) && |chunk| <= s.remaining <= |Content(j, k)|
    requires t == s.(remaining := s.remaining - |chunk|, sent := s.sent + |chunk|)
    requires var all := Content(j, k); chunk == all[|all| - s.remaining..|all| - t.remaining]
    ensures Streamed(j, s, S.Before(chunk, p), k)
  {
    hide Content, Message;
    var all := Content(j, k);
    if p.s.idx == k + 1 {
      assert all[|all| - s.remaining..] == chunk + all[|all| - t.remaining..];
      assert chunk + (all[|all| - t.remaining..] + Message(j, k + 1)) == chunk + all[|all| - t.remaining..] + Message(j, k + 1);
    }
    if 0 < p.s.remaining <= t.remaining {
      assert all[|all| - s.remaining..|all| - p.s.remaining] == chunk + all[|all| - t.remaining..|all| - p.s.remaining];
    }
  }

  lemma PumpsFirst(j: Job, s: S.Share, budget: nat)
    requires s.entries == j.entries && s.state == S.Offering && s.idx == 0 && s.err == S.NoError
    ensures var p := S.Pump(s, budget);
            && p.bytes == Message(j, 0)
            && p.s == s.(state := p.s.state, shut := p.s.shut)
            && p.s.state == if Has(j, 0) then S.WaitResume else S.Done
  {
    hide S.Pump, S.OfferOf, S.END_MESSAGE;
    S.PumpOnce(s, budget);
    S.PumpOnce(s.(state := S.Ending), budget);
  }

  /** Part of an answer is only remembered. */
  lemma {:induction false} PartAnswer(s: S.Share, b: string, budget: nat)
    requires s.state == S.WaitResume && s.idx < |s.entries| && '\n' !in b && |s.rbuf| + |b| <= S.MAX_ANSWER
    ensures S.OnData(s, b, budget) == S.Pumped(s.(rbuf := s.rbuf + b), "")
    decreases |b|
  {
    hide S.Resume;
    if b == "" {
      assert s.rbuf + b == s.rbuf;
    } else {
      var t := s.(rbuf := s.rbuf + [b[0]]);
      PartAnswer(t, b[1..], budget);
      assert s.rbuf + b == t.rbuf + b[1..];
    }
  }

  lemma {:induction false} WholeAnswer(s: S.Share, b: string, budget: nat)
    requires s.state == S.WaitResume && s.idx < |s.entries| && '\n' !in b && |s.rbuf| + |b| <= S.MAX_ANSWER
    ensures S.OnData(s, b + "\n", budget) == S.Resume(s.(rbuf := s.rbuf + b), budget)
    decreases |b|
  {
    hide S.Resume;
    if b == "" {
      assert s.rbuf + b == s.rbuf;
      assert b + "\n" == "\n";
    } else {
      var t := s.(rbuf := s.rbuf + [b[0]]);
      assert (b + "\n")[1..] == b[1..] + "\n";
      WholeAnswer(t, b[1..], budget);
      assert s.rbuf + b == t.rbuf + b[1..];
    }
  }

  // ---- the receiver takes one byte ----

  /** The line of a message, without its newline. */
  function Line(j: Job, k: nat): string {
    if Has(j, k) then
      var e := j.entries[k];
      OfferLine(e.size, S.FileCrc(e), e.relpath)
    else END_LINE
  }

  lemma MessageFacts(j: Job, k: nat)
    requires Good(j)
    ensures var line := Line(j, k);
            && Message(j, k) == line + "\n" && '\n' !in line && |line| <= MAX_HEADER
            && ParseHeader(line) == if Has(j, k) then Offer(j.entries[k].size, S.FileCrc(j.entries[k]), j.entries[k].relpath)
                                    else End
  {
    hide S.FileCrc, OfferLine, Content, ParseHeader;
    if Has(j, k) {
      EntryFacts(j, k);
      assert GoodEntry(j.entries[k]);
      HeaderRoundTrip(j.entries[k].size, S.FileCrc(j.entries[k]), j.entries[k].relpath);
    } else {
      EndRead();
    }
  }

  lemma EndRead()
    ensures ParseHeader(END_LINE) == End && '\n' !in END_LINE
  {}

  lemma DestsGrow(j: Job, k: nat)
    requires Has(j, k)
    ensures DestsBefore(j, k + 1) == DestsBefore(j, k) + {Dest(j, k)}
    ensures DestsBefore(j, k + 1) <= DestsBefore(j, |j.entries|)
  {
    hide Dest;
  }

  lemma SafeUnpublished(j: Job, w: World, h: G.Get, k: nat)
    requires Good(j) && Has(j, k) && DiskSafe(j, w) && Resumable(j, h.disk)
    requires Touches(w.g.disk, h.disk, Dest(j, k), j.inDir) && Unpublished(w.g, h, Dest(j, k))
    ensures DiskSafe(j, w.(g := h))
  {
    hide Dest, Content, Good, Resumable, Touches;
    forall i: nat | Has(j, i) && Dest(j, i) in w.past + h.published
      ensures Delivered(j, h.disk, i)
    {
      OthersDelivered(j, w.g.disk, h.disk, k, i);
    }
  }

  lemma SafeClosed(j: Job, w: World, g: G.Get, h: G.Get, k: nat)
    requires Good(j) && Has(j, k) && DiskSafe(j, w) && w.g.files == k && Closed(j, g, h, k)
    requires g.disk == w.g.disk && g.files == k && g.published == w.g.published
    ensures DiskSafe(j, w.(g := h))
  {
    hide Dest, Content, Good, Resumable, Touches;
    if h.err != G.NoError {
      SafeUnpublished(j, w, h, k);
    } else {
      DestsGrow(j, k);
      forall i: nat | Has(j, i) && Dest(j, i) in w.past + h.published
        ensures Delivered(j, h.disk, i)
      {
        if i != k {
          Distinct(j, i, k);
          OthersDelivered(j, w.g.disk, h.disk, k, i);
        }
      }
    }
  }

  lemma Distinct(j: Job, i: nat, k: nat)
    requires Good(j) && Has(j, i) && Has(j, k) && i != k
    ensures Dest(j, i) != Dest(j, k)
  {
    hide Dest;
    assert Dest(j, i) in Paths(Dest(j, i)) && Dest(j, k) in Paths(Dest(j, k));
  }

  /** One byte delivered. */
  function One(w: World): World
    requires w.toGet != ""
  {
    w.(g := G.Step(w.g, w.toGet[0]), toGet := w.toGet[1..])
  }

  /** A byte of entry k's data. */
  lemma DataByte(j: Job, w: World, k: nat)
    requires Inv(j, w) && Inside(j, w.g, k) && w.toGet != "" && w.toGet[0] == Content(j, k)[w.g.got]
    ensures var h := One(w).g;
            && h.out == w.g.out && DiskSafe(j, One(w)) && G.Sound(h)
            && (w.g.got + 1 < |Content(j, k)| ==> Inside(j, h, k) && h.got == w.g.got + 1)
            && (w.g.got + 1 == |Content(j, k)| ==>
                  (h.err != G.NoError && Refused(h.err)) || (h.err == G.NoError && Between(j, h, k + 1) && h.hdr == ""))
  {
    hide Crc32.Update, Dest, Content, S.FileCrc, G.FinishEntry, Good, Resumable, Touches, InStep, G.Sound, Delivered, SameAt;
    var c := w.toGet[0];
    var b := Content(j, k)[w.g.got..w.g.got + 1];
    assert b == [c];
    G.StepSound(w.g, c);
    Receives(j, w.g, k, [c]);
    var r := G.Receive(w.g, [c]);
    SafeUnpublished(j, w, r, k);
    EntryFacts(j, k);
    if r.got == r.size {
      Finishes(j, r, k);
      SafeClosed(j, w.(g := r), r, G.FinishEntry(r), k);
      assert w.(g := r).(g := G.FinishEntry(r)) == w.(g := G.FinishEntry(r));
    }
  }

  /** The newline of a header: the entry is refused, or the receiver answers. */
  lemma HeaderEnds(j: Job, w: World, k: nat)
    requires Inv(j, w) && Between(j, w.g, k) && Quiet(w) && Has(j, k)
    requires w.toGet == "\n" && w.g.hdr == Line(j, k)
    requires w.s.state == S.WaitResume && w.s.idx == k
    ensures Inv(j, One(w))
  {
    hide Crc32.Update, Dest, Content, S.FileCrc, G.FinishEntry, G.Begin, Good, Resumable, Touches, G.Sound, Line,
         ResumeLine, ParseHeader, Delivered, SameAt, KeptOf, DiskSafe;
    var w1 := One(w);
    G.StepSound(w.g, '\n');
    MessageFacts(j, k);
    var g := w.g.(hdr := "");
    assert w1.g == Offered(j, g, k);
    assert DiskSafe(j, w.(g := g)) && DiskSafe(j, w) ==> Resumable(j, g.disk) by { SafeParts(j, w); }
    SafeParts(j, w);
    Begins(j, g, k);
    var off := KeptOf(j, g, k);
    if w1.g.out == g.out && w1.g.err != G.NoError && Closed(j, g, w1.g, k) {
      SafeClosed(j, w, g, w1.g, k);
    } else {
      AnswerSent(w, w1, ResumeLine(off) + "\n");
      if off < |Content(j, k)| {
        SafeUnpublished(j, w, w1.g, k);
      } else {
        SafeClosed(j, w, g, w1.g, k);
      }
    }
    SafeFrame(j, w, w1);
  }

  lemma SafeParts(j: Job, w: World)
    requires DiskSafe(j, w)
    ensures Resumable(j, w.g.disk)
  {}

  /** DiskSafe looks at the receiver and the past only. */
  lemma SafeFrame(j: Job, w: World, v: World)
    requires w.past == v.past
    ensures DiskSafe(j, v) == DiskSafe(j, w.(g := v.g))
  {
    hide Dest, Resumable, Delivered;
  }

  lemma AnswerSent(w: World, v: World, a: string)
    requires Quiet(w) && w.taken <= |w.g.out| && v.taken == w.taken && v.g.out == w.g.out + a
    ensures ToShare(v) == a
  {}

  /** A byte of message k. */
  lemma HeaderByte(j: Job, w: World, k: nat)
    requires Inv(j, w) && Between(j, w.g, k) && k <= |j.entries| && Quiet(w)
    requires w.toGet != "" && w.g.hdr + w.toGet == Message(j, k) && w.s.idx == k
    requires w.s.state == if Has(j, k) then S.WaitResume else S.Done
    ensures Inv(j, One(w))
  {
    hide S.FileCrc, G.Begin, Good, G.Sound, Line, Message, ParseHeader, DiskSafe, Content, At, Dest;
    MessageFacts(j, k);
    var line, hdr := Line(j, k), w.g.hdr;
    var m := Message(j, k);
    assert m[|hdr|] == w.toGet[0] && m[|line|] == '\n';
    if |w.toGet| > 1 {
      assert |hdr| < |line| && m[|hdr|] == line[|hdr|];
      G.StepSound(w.g, w.toGet[0]);
      assert One(w).g == w.g.(hdr := hdr + [w.toGet[0]]);
      assert (hdr + [w.toGet[0]]) + w.toGet[1..] == m;
      SafeHeader(j, w, One(w));
    } else {
      assert hdr == m[..|line|] == line;
      assert w.toGet == "\n";
      if Has(j, k) {
        HeaderEnds(j, w, k);
      } else {
        G.StepSound(w.g, '\n');
        SafeHeader(j, w, One(w));
      }
    }
  }

  lemma SafeHeader(j: Job, w: World, v: World)
    requires DiskSafe(j, w) && v.past == w.past && v.g.disk == w.g.disk
    requires v.g.files == w.g.files && v.g.published == w.g.published
    ensures DiskSafe(j, v)
  {}

  /** Whatever the next byte is, the invariant survives it. */
  lemma OneKeeps(j: Job, w: World)
    requires Inv(j, w) && w.toGet != ""
    ensures Inv(j, One(w))
  {
    hide S.FileCrc, Good, G.Sound, Message, DiskSafe, Content, At, Dest, G.Step;
    var k := w.s.idx;
    InsideRuns(j, w.g);
    InsideRuns(j, One(w).g);
    if !G.Running(w.g) {
      assert One(w).g == w.g by { StepStopped(w.g, w.toGet[0]); }
      SafeHeader(j, w, One(w));
    } else if w.s.state.Streaming? {
      DataByte(j, w, k);
      assert w.toGet[1..] == Content(j, k)[w.g.got + 1..|Content(j, k)| - w.s.remaining];
    } else if Between(j, w.g, k) && w.g.hdr + w.toGet == Message(j, k) {
      HeaderByte(j, w, k);
    } else {
      TailByte(j, w);
    }
  }

  /** A byte of an entry that the sender is done with. */
  lemma TailByte(j: Job, w: World)
    requires Inv(j, w) && w.toGet != "" && G.Running(w.g) && !w.s.state.Streaming?
    requires !(Between(j, w.g, w.s.idx) && w.g.hdr + w.toGet == Message(j, w.s.idx))
    ensures Inv(j, One(w))
  {
    hide S.FileCrc, Good, G.Sound, Message, DiskSafe, Content, At, Dest, G.Step;
    var k := w.s.idx;
    InsideRuns(j, w.g);
    InsideRuns(j, One(w).g);
    var all := Content(j, k - 1);
    assert w.toGet == all[w.g.got..] + Message(j, k);
    assert all[w.g.got..][0] == all[w.g.got];
    DataByte(j, w, k - 1);
    assert all[w.g.got..][1..] == all[w.g.got + 1..];
    assert w.toGet[1..] == all[w.g.got + 1..] + Message(j, k);
    MessageFacts(j, k);
  }

  lemma InsideRuns(j: Job, g: G.Get)
    ensures forall k: nat :: Inside(j, g, k) || Between(j, g, k) ==> G.Running(g)
    ensures forall k: nat :: Inside(j, g, k) ==> Has(j, k) && g.got < |Content(j, k)|
  {}

  lemma StepStopped(g: G.Get, c: char)
    requires !G.Running(g)
    ensures G.Step(g, c) == g
  {}

  lemma {:induction false} DeliverKeeps(j: Job, w: World, n: nat)
    requires Inv(j, w)
    ensures Inv(j, Act(j, w, Deliver(n)))
    decreases n
  {
    hide Inv, G.Step;
    var m := Least(n, |w.toGet|);
    if m == 0 {
      assert w.toGet[m..] == w.toGet;
      assert w.toGet[..m] == "";
      assert Act(j, w, Deliver(n)) == w;
    } else {
      OneKeeps(j, w);
      DeliverKeeps(j, One(w), n - 1);
      var b := w.toGet[..m];
      assert b[0] == w.toGet[0] && b[1..] == w.toGet[1..][..m - 1];
      assert w.toGet[m..] == w.toGet[1..][m - 1..];
      assert G.FeedAll(w.g, b) == G.FeedAll(G.Step(w.g, b[0]), b[1..]);
      assert Act(j, w, Deliver(n)) == Act(j, One(w), Deliver(n - 1));
    }
  }

  // ---- the sender moves ----

  /** The sender streams on behind what is already on its way. */
  lemma MovesOn(j: Job, w: World, t: S.Share, budget: nat, k: nat)
    requires Good(j) && Has(j, k) && G.Sound(w.g) && DiskSafe(j, w) && w.taken <= |w.g.out|
    requires w.g.err == G.NoError && ToShare(w) == "" && t.rbuf == ""
    requires Booked(j, t) && t.state == S.Streaming && t.idx == k
    requires || (Inside(j, w.g, k) && w.g.got <= |Content(j, k)| - t.remaining
                 && w.toGet == Content(j, k)[w.g.got..|Content(j, k)| - t.remaining])
             || (Between(j, w.g, k + 1) && w.g.hdr == "" && t.remaining == 0 && w.toGet == "")
    ensures Inv(j, Sent(w, S.Pump(t, budget)))
  {
    hide S.Pump, Content, Good, G.Sound, Message, At, Dest, SizesBefore, DiskSafe, InStep, Inside, Between;
    var p := S.Pump(t, budget);
    PumpStreams(j, t, budget, k);
    var v := Sent(w, p);
    SafeHeader(j, w, v);
    MovesBooked(j, t, p, k);
    if p.s.idx == k + 1 {
      MovesNext(j, w, t, p, k);
    } else {
      MovesWithin(j, w, t, p, k);
    }
  }

  lemma MovesBooked(j: Job, t: S.Share, p: S.Pumped, k: nat)
    requires Good(j) && Has(j, k) && Booked(j, t) && t.state == S.Streaming && t.idx == k && Streamed(j, t, p, k)
    ensures Booked(j, p.s)
  {
    hide Content, Good, Message, SizesBefore;
    SizesGrow(j, k);
  }

  lemma MovesNext(j: Job, w: World, t: S.Share, p: S.Pumped, k: nat)
    requires Good(j) && Has(j, k) && Streamed(j, t, p, k) && p.s.idx == k + 1
    requires ToShare(w) == "" && t.rbuf == "" && t.idx == k
    requires || (Inside(j, w.g, k) && w.g.got <= |Content(j, k)| - t.remaining
                 && w.toGet == Content(j, k)[w.g.got..|Content(j, k)| - t.remaining])
             || (Between(j, w.g, k + 1) && w.g.hdr == "" && t.remaining == 0 && w.toGet == "")
    ensures InStep(j, Sent(w, p))
  {
    hide Content, Good, Message, Inside, Between, Ahead, Asked, Flowing, Finished;
    NextAhead(j, w, Sent(w, p), k, |Content(j, k)| - t.remaining);
  }

  lemma NextAhead(j: Job, w: World, v: World, k: nat, at: nat)
    requires Good(j) && Has(j, k) && at <= |Content(j, k)| && v.g == w.g
    requires v.toGet == w.toGet + (Content(j, k)[at..] + Message(j, k + 1))
    requires || (Inside(j, w.g, k) && w.g.got <= at && w.toGet == Content(j, k)[w.g.got..at])
             || (Between(j, w.g, k + 1) && w.g.hdr == "" && at == |Content(j, k)| && w.toGet == "")
    ensures Ahead(j, v, k + 1)
  {
    hide Content, Good, Message, Inside, Between;
    MessageFacts(j, k + 1);
    if Inside(j, w.g, k) && w.g.got <= at && w.toGet == Content(j, k)[w.g.got..at] {
      Joined(Content(j, k), w.g.got, at, Message(j, k + 1));
    } else {
      Joined(Content(j, k), at, at, Message(j, k + 1));
      assert w.toGet == Content(j, k)[at..at];
      assert v.toGet == Message(j, k + 1) == w.g.hdr + v.toGet;
    }
  }

  lemma Joined(all: string, got: nat, at: nat, message: string)
    requires got <= at <= |all|
    ensures all[got..at] + (all[at..] + message) == all[got..] + message
  {}

  lemma MovesWithin(j: Job, w: World, t: S.Share, p: S.Pumped, k: nat)
    requires Good(j) && Has(j, k) && Streamed(j, t, p, k) && p.s.idx != k + 1 && t.state == S.Streaming
    requires ToShare(w) == "" && t.rbuf == "" && t.idx == k
    requires || (Inside(j, w.g, k) && w.g.got <= |Content(j, k)| - t.remaining
                 && w.toGet == Content(j, k)[w.g.got..|Content(j, k)| - t.remaining])
             || t.remaining == 0
    ensures InStep(j, Sent(w, p))
  {
    hide Content, Good, Message, Inside, Between;
    var all := Content(j, k);
    assert Sent(w, p).toGet == all[w.g.got..|all| - p.s.remaining];
  }

  lemma SizesGrow(j: Job, k: nat)
    requires Good(j) && Has(j, k)
    ensures SizesBefore(j, k + 1) == SizesBefore(j, k) + |Content(j, k)|
    ensures SizesBefore(j, |j.entries|) == S.TotalSize(j.entries)
  {
    EntryFacts(j, k);
    assert j.entries[..k + 1][..k] == j.entries[..k];
    assert j.entries[..|j.entries|] == j.entries;
  }

  /** The sender takes part of an answer, or all of it. */
  lemma ReplyKeeps(j: Job, w: World, n: nat, budget: nat)
    requires Inv(j, w)
    ensures Inv(j, Act(j, w, Reply(n, budget)))
  {
    hide S.OnData, Inside, Content, Good, G.Sound, Message, At, Dest, DiskSafe, ResumeLine, Booked;
    var b := ToShare(w);
    var m := Least(n, |b|);
    var v := Act(j, w, Reply(n, budget));
    SafeHeader(j, w, v);
    if w.g.err == G.NoError {
      if m == 0 {
        assert b[..m] == "";
        NoData(w.s, budget);
        assert v.toGet == w.toGet;
        assert v == w;
      } else {
        var k := w.s.idx;
        InsideRuns(j, w.g);
        var off := if Inside(j, w.g, k) && w.s.rbuf + ToShare(w) == ResumeLine(w.g.got) + "\n" then w.g.got else |Content(j, k)|;
        AnswerTaken(j, w, m, budget, k, off);
      }
    }
  }

  lemma NoData(s: S.Share, budget: nat)
    ensures S.OnData(s, "", budget) == S.Pumped(s, "")
  {}

  lemma AnswerTaken(j: Job, w: World, m: nat, budget: nat, k: nat, off: nat)
    requires Inv(j, w) && w.g.err == G.NoError && w.s.state == S.WaitResume && w.s.idx == k && Asked(j, w, k)
    requires 0 < m <= |ToShare(w)| && off <= |Content(j, k)|
    requires w.s.rbuf + ToShare(w) == ResumeLine(off) + "\n"
    requires (Inside(j, w.g, k) && w.g.got == off) || (Between(j, w.g, k + 1) && w.g.hdr == "" && off == |Content(j, k)|)
    ensures Inv(j, Sent(w.(taken := w.taken + m), S.OnData(w.s, ToShare(w)[..m], budget)))
  {
    hide S.OnData, S.Resume, Inside, Between, Content, Good, G.Sound, Message, At, Dest, DiskSafe, ResumeLine, ParseResume, Ahead;
    EntryBound(j, k);
    ResumeRoundTrip(off);
    var b := ToShare(w);
    if m < |b| {
      var v := w.(taken := w.taken + m, s := w.s.(rbuf := w.s.rbuf + b[..m]));
      PartTaken(w.s, b, m, ResumeLine(off), budget);
      assert Sent(w.(taken := w.taken + m), S.OnData(w.s, b[..m], budget)) == v.(toGet := v.toGet + "") == v;
      SafeHeader(j, w, v);
      assert ToShare(v) == b[m..];
      assert Asked(j, v, k);
    } else {
      assert b[..m] == b;
      WholeTaken(w.s, b, ResumeLine(off), budget);
      Resumed(j, w, budget, k, off);
    }
  }

  lemma PartTaken(s: S.Share, b: string, m: nat, answer: string, budget: nat)
    requires s.state == S.WaitResume && s.idx < |s.entries| && m < |b| && s.rbuf + b == answer + "\n"
    requires '\n' !in answer && |answer| <= 27
    ensures S.OnData(s, b[..m], budget) == S.Pumped(s.(rbuf := s.rbuf + b[..m]), "")
    ensures s.rbuf + b[..m] + b[m..] == answer + "\n" && |s.rbuf + b[..m]| <= S.MAX_ANSWER
  {
    hide S.OnData;
    var whole := s.rbuf + b;
    assert s.rbuf + b[..m] == whole[..|s.rbuf| + m] == answer[..|s.rbuf| + m];
    NoNewline(s.rbuf, b[..m], answer);
    PartAnswer(s, b[..m], budget);
    assert b[..m] + b[m..] == b;
  }

  lemma WholeTaken(s: S.Share, b: string, answer: string, budget: nat)
    requires s.state == S.WaitResume && s.idx < |s.entries| && b != "" && s.rbuf + b == answer + "\n"
    requires '\n' !in answer && |answer| <= 27
    ensures S.OnData(s, b, budget) == S.Resume(s.(rbuf := answer), budget)
  {
    hide S.OnData, S.Resume;
    var whole := s.rbuf + b;
    var rest := b[..|b| - 1];
    assert whole[|whole| - 1] == '\n' && b == rest + "\n";
    assert s.rbuf + rest == whole[..|whole| - 1] == answer;
    NoNewline(s.rbuf, rest, answer);
    WholeAnswer(s, rest, budget);
  }

  lemma EntryBound(j: Job, k: nat)
    requires Good(j) && Has(j, k)
    ensures |Content(j, k)| <= Text.MAX64
  {
    EntryFacts(j, k);
  }

  lemma NoNewline(a: string, b: string, answer: string)
    requires a + b <= answer && '\n' !in answer && |answer| <= 27
    ensures '\n' !in b && |a| + |b| <= S.MAX_ANSWER
  {
    forall i | 0 <= i < |b|
      ensures b[i] != '\n'
    {
      assert (a + b)[|a| + i] == b[i] == answer[|a| + i];
    }
  }

  /** The whole RESUME line is in: the sender opens the entry there and streams. */
  lemma Resumed(j: Job, w: World, budget: nat, k: nat, off: nat)
    requires Inv(j, w) && w.g.err == G.NoError && w.s.state == S.WaitResume && w.s.idx == k && w.toGet == "" && Has(j, k)
    requires off <= |Content(j, k)| && ParseResume(ResumeLine(off)) == off
    requires (Inside(j, w.g, k) && w.g.got == off) || (Between(j, w.g, k + 1) && w.g.hdr == "" && off == |Content(j, k)|)
    ensures Inv(j, Sent(w.(taken := |w.g.out|), S.Resume(w.s.(rbuf := ResumeLine(off)), budget)))
  {
    hide Inside, Between, Content, Good, G.Sound, Message, At, Dest, DiskSafe, ResumeLine, S.Pump, ParseResume, SizesBefore,
         S.Resume, Booked, InStep;
    var v := w.(taken := |w.g.out|);
    SafeHeader(j, w, v);
    var t := Reopened(j, w.s, k, off);
    ResumeIs(j, w.s, budget, k, off);
    assert Inside(j, w.g, k) && w.g.got == off ==> v.toGet == Content(j, k)[off..off];
    MovesOn(j, v, t, budget, k);
  }

  /** The sender at byte `off` of entry k. */
  function Reopened(j: Job, s: S.Share, k: nat, off: nat): S.Share
    requires Has(j, k) && off <= |Content(j, k)|
  {
    s.(rbuf := "", isOpen := true, remaining := |Content(j, k)| - off, sent := s.sent + off, state := S.Streaming)
  }

  lemma ResumeIs(j: Job, s: S.Share, budget: nat, k: nat, off: nat)
    requires Good(j) && Has(j, k) && Booked(j, s) && s.state == S.WaitResume && s.idx == k
    requires off <= |Content(j, k)| && ParseResume(ResumeLine(off)) == off
    ensures S.Resume(s.(rbuf := ResumeLine(off)), budget) == S.Pump(Reopened(j, s, k, off), budget)
    ensures Booked(j, Reopened(j, s, k, off))
  {
    hide Content, Good, ResumeLine, S.Pump, ParseResume, SizesBefore;
    EntryFacts(j, k);
    ReadableEntry(j, k);
  }

  lemma ReadableEntry(j: Job, k: nat)
    requires Good(j) && Has(j, k)
    ensures j.entries[k].file.Some?
  {
    assert GoodEntry(j.entries[k]);
  }

  lemma WritableKeeps(j: Job, w: World, budget: nat)
    requires Inv(j, w)
    ensures Inv(j, Act(j, w, Writable(budget)))
  {
    hide Inside, Content, Good, G.Sound, Message, At, Dest, DiskSafe, S.Pump, SizesBefore;
    var p := S.Pump(w.s, budget);
    var v := Sent(w, p);
    SafeHeader(j, w, v);
    if w.g.err == G.NoError {
      if w.s.state.Offering? {
        FirstOffer(j, w, budget);
      } else if w.s.state.Streaming? {
        MovesOn(j, w, w.s, budget, w.s.idx);
      } else {
        S.PumpOnce(w.s, budget);
        assert v.toGet == w.toGet;
        assert v == w;
      }
    }
  }

  lemma FirstOffer(j: Job, w: World, budget: nat)
    requires Inv(j, w) && w.g.err == G.NoError && w.s.state == S.Offering
    ensures Inv(j, Sent(w, S.Pump(w.s, budget)))
  {
    hide Content, Good, G.Sound, Message, At, Dest, DiskSafe, S.Pump, SizesBefore, Between, S.Fresh, S.TotalSize,
         Booked, Ahead, Asked, Finished, Flowing, Quiet;
    var p := S.Pump(w.s, budget);
    FirstBooked(j, w.s, budget);
    FirstAhead(j, w, budget);
    SafeHeader(j, w, Sent(w, p));
  }

  lemma FirstBooked(j: Job, s: S.Share, budget: nat)
    requires Good(j) && Booked(j, s) && s.state == S.Offering && s.idx == 0
    ensures Booked(j, S.Pump(s, budget).s)
  {
    hide Content, Good, Message, S.Pump, SizesBefore;
    PumpsFirst(j, s, budget);
  }

  lemma FirstAhead(j: Job, w: World, budget: nat)
    requires Good(j) && Booked(j, w.s) && InStep(j, w) && w.s.state == S.Offering
    ensures InStep(j, Sent(w, S.Pump(w.s, budget)))
  {
    hide Content, Good, Message, S.Pump, SizesBefore, Between;
    PumpsFirst(j, w.s, budget);
    MessageFacts(j, 0);
    var v := Sent(w, S.Pump(w.s, budget));
    assert "" + Message(j, 0) == Message(j, 0);
    assert Ahead(j, v, 0);
  }

  // ---- every history ----

  lemma CutKeeps(j: Job, w: World, overwrite: bool)
    requires Inv(j, w)
    ensures Inv(j, Act(j, w, CutAndRerun(overwrite)))
  {
    hide Dest, Resumable, Delivered, Good;
    var v := Act(j, w, CutAndRerun(overwrite));
    assert v.g.disk == w.g.disk;
    assert DestsBefore(j, 0) == {};
    assert DestsBefore(j, w.g.files) <= DestsBefore(j, |j.entries|);
    assert v.past + v.g.published == w.past + w.g.published;
    assert j.entries[..0] == [];
  }

  lemma FreshInv(j: Job, overwrite: bool, disk: G.Disk)
    requires Good(j) && Resumable(j, disk)
    ensures Inv(j, Fresh(j, overwrite, disk, {}))
  {
    hide Dest, Resumable, Delivered, Good;
    assert DestsBefore(j, 0) == {};
    assert j.entries[..0] == [];
  }

  lemma ActKeeps(j: Job, w: World, a: Action)
    requires Inv(j, w)
    ensures Inv(j, Act(j, w, a))
  {
    hide Inv, Act;
    match a
    case Deliver(n) => DeliverKeeps(j, w, n);
    case Reply(n, budget) => ReplyKeeps(j, w, n, budget);
    case Writable(budget) => WritableKeeps(j, w, budget);
    case CutAndRerun(overwrite) => CutKeeps(j, w, overwrite);
  }

  lemma {:induction false} RunKeeps(j: Job, w: World, actions: seq<Action>)
    requires Inv(j, w)
    ensures Inv(j, Run(j, w, actions))
    decreases |actions|
  {
    hide Inv, Act;
    if actions != [] {
      ActKeeps(j, w, actions[0]);
      RunKeeps(j, Act(j, w, actions[0]), actions[1..]);
    }
  }

  /** Resume is safe over whole histories: however the streams are cut into pieces, the
      link dropped and the get run again, a partial file whose record matches its offer
      is a prefix of the source, every file renamed into place equals the source and is
      where its offered path says, and a receiver that reports done has published every
      entry. It never sees damage: the
      only errors are those of the target file system. */
  lemma ResumeSafe(j: Job, overwrite: bool, disk: G.Disk, actions: seq<Action>)
    requires Good(j) && Resumable(j, disk)
    ensures var w := Run(j, Fresh(j, overwrite, disk, {}), actions);
            && Resumable(j, w.g.disk)
            && w.past + w.g.published <= DestsBefore(j, |j.entries|)
            && (forall k: nat :: Has(j, k) && Dest(j, k) in w.past + w.g.published ==>
                  Delivered(j, w.g.disk, k) && InPlace(j, w.g.disk, k))
            && (w.g.err == G.NoError || Refused(w.g.err))
            && (w.g.done && w.g.err == G.NoError ==>
                  w.g.files == |j.entries| && (forall k: nat :: Has(j, k) ==> Delivered(j, w.g.disk, k) && InPlace(j, w.g.disk, k)))
  {
    hide Act, Dest, Delivered, InPlace, Resumable, Good;
    var w0 := Fresh(j, overwrite, disk, {});
    FreshInv(j, overwrite, disk);
    RunKeeps(j, w0, actions);
    var w := Run(j, w0, actions);
    assert DestsBefore(j, w.g.files) <= DestsBefore(j, |j.entries|);
    forall k: nat | Has(j, k) && Delivered(j, w.g.disk, k)
      ensures InPlace(j, w.g.disk, k)
    {
      DeliveredInPlace(j, w.g.disk, k);
    }
    if w.g.done && w.g.err == G.NoError {
      DoneFinished(j, w);
      forall k: nat | Has(j, k)
        ensures Delivered(j, w.g.disk, k)
      {
        assert Dest(j, k) in DestsBefore(j, |j.entries|);
      }
    }
  }

  lemma DoneFinished(j: Job, w: World)
    requires Inv(j, w) && w.g.done && w.g.err == G.NoError
    ensures Finished(j, w.g)
  {
    hide At, Content, Good, DiskSafe, Message;
    InsideRuns(j, w.g);
  }

  /** At most one RESUME is ever under way, none reaches the sender outside WaitResume,
      and nothing follows it that the sender's early return could drop. */
  lemma OneAnswer(j: Job, overwrite: bool, disk: G.Disk, actions: seq<Action>)
    requires Good(j) && Resumable(j, disk)
    ensures var w := Run(j, Fresh(j, overwrite, disk, {}), actions);
            w.g.err == G.NoError && ToShare(w) != "" ==>
              && w.s.state == S.WaitResume
              && exists off: nat :: w.s.rbuf + ToShare(w) == ResumeLine(off) + "\n" && '\n' !in ResumeLine(off)
  {
    hide Act, Dest, Delivered, Resumable, Good, DiskSafe, At, ResumeLine, G.Sound;
    var w0 := Fresh(j, overwrite, disk, {});
    FreshInv(j, overwrite, disk);
    RunKeeps(j, w0, actions);
    var w := Run(j, w0, actions);
    if w.g.err == G.NoError && ToShare(w) != "" {
      var k := w.s.idx;
      assert Asked(j, w, k);
      var off := if Inside(j, w.g, k) && w.s.rbuf + ToShare(w) == ResumeLine(w.g.got) + "\n" then w.g.got else |Content(j, k)|;
      EntryBound(j, k);
      ResumeRoundTrip(off);
    }
  }
}
