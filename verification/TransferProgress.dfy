/** The resumable file protocol gets there (src/peer/pipes.cpp:165-395): while the link
    holds and the target file system lets the files be written, the two ends never get
    stuck, every step that changes anything brings them nearer the end, and the end is
    reached with every file in place. */
module TransferProgress {
  import opened Wrappers
  import opened Transfer
  import opened TransferEntry
  import opened FileLines
  import Crc32
  import SafePath
  import Text
  import S = ShareFile
  import G = GetFile

  // ---- the measure ----

  /** Bytes the sender still has to write, from message k on. */
  function Rest(j: Job, k: nat): nat
    decreases |j.entries| - k
  {
    |Message(j, k)| + if Has(j, k) then |Content(j, k)| + Rest(j, k + 1) else 0
  }

  function Unsent(j: Job, s: S.Share): nat {
    match s.state
    case Offering => Rest(j, s.idx)
    case WaitResume => if Has(j, s.idx) then |Content(j, s.idx)| + Rest(j, s.idx + 1) else 0
    case Streaming => s.remaining + Rest(j, s.idx + 1)
    case _ => 0
  }

  /** RESUME lines the receiver still has to send. */
  function Unanswered(j: Job, g: G.Get): nat {
    var past := if g.state == G.Recv then g.files + 1 else g.files;
    if past <= |j.entries| then |j.entries| - past else 0
  }

  function Measure(j: Job, w: World): nat {
    2 * Unsent(j, w.s) + |w.toGet| + |ToShare(w)| + 30 * Unanswered(j, w.g)
  }

  lemma MessageNotEmpty(j: Job, k: nat)
    requires Good(j)
    ensures |Message(j, k)| > 0
  {
    MessageFacts(j, k);
  }

  // ---- every step that changes anything lowers the measure ----

  lemma OneFalls(j: Job, w: World)
    requires Inv(j, w) && w.toGet != "" && w.g.err == G.NoError && One(w).g.err == G.NoError
    ensures Measure(j, One(w)) < Measure(j, w)
  {
    hide Content, Good, G.Sound, Message, At, Dest, DiskSafe, G.Step, Booked, Rest, Unsent, ResumeLine;
    OneKeeps(j, w);
    var v := One(w);
    InsideState(j, w.g);
    InsideState(j, v.g);
    if w.s.state == S.WaitResume && Asked(j, v, w.s.idx) {
      AnswerShort(j, v, w.s.idx);
    }
  }

  lemma InsideState(j: Job, g: G.Get)
    ensures forall k: nat :: Inside(j, g, k) ==> g.state == G.Recv && Has(j, k) && g.got < |Content(j, k)|
  {}

  lemma AnswerShort(j: Job, w: World, k: nat)
    requires Good(j) && Asked(j, w, k)
    ensures |ToShare(w)| <= 28
  {
    hide Content, Good, At, ResumeLine;
    InsideState(j, w.g);
    EntryBound(j, k);
    if Inside(j, w.g, k) && w.s.rbuf + ToShare(w) == ResumeLine(w.g.got) + "\n" {
      ResumeRoundTrip(w.g.got);
    } else {
      ResumeRoundTrip(|Content(j, k)|);
    }
  }

  lemma {:induction false} DeliverFalls(j: Job, w: World, n: nat)
    requires Inv(j, w) && w.g.err == G.NoError
    ensures var v := Act(j, w, Deliver(n));
            v.g.err == G.NoError ==> v == w || Measure(j, v) < Measure(j, w)
    decreases n
  {
    hide Inv, G.Step, Measure;
    var m := Least(n, |w.toGet|);
    var v := Act(j, w, Deliver(n));
    if m == 0 {
      assert w.toGet[m..] == w.toGet;
      assert w.toGet[..m] == "";
      assert v == w;
    } else {
      OneKeeps(j, w);
      var b := w.toGet[..m];
      assert b[0] == w.toGet[0] && b[1..] == w.toGet[1..][..m - 1];
      assert w.toGet[m..] == w.toGet[1..][m - 1..];
      assert G.FeedAll(w.g, b) == G.FeedAll(G.Step(w.g, b[0]), b[1..]);
      assert v == Act(j, One(w), Deliver(n - 1));
      if One(w).g.err == G.NoError {
        OneFalls(j, w);
        DeliverFalls(j, One(w), n - 1);
      } else {
        G.Stopped(One(w).g, b[1..]);
      }
    }
  }

  /** A move of the sender, judged by where the two ends then stand. */
  lemma SenderFalls(j: Job, w: World, v: World, k: nat)
    requires Inv(j, w) && Inv(j, v) && v.g == w.g && w.g.err == G.NoError && w.s.state == S.WaitResume && w.s.idx == k
    requires w.toGet == "" && Asked(j, w, k) && v.s.rbuf == "" && ToShare(v) == ""
    ensures 2 * Unsent(j, v.s) + |v.toGet| <= 2 * Unsent(j, w.s)
  {
    hide Content, Good, G.Sound, Message, At, Dest, DiskSafe, Booked, Rest, ResumeLine;
    InsideState(j, w.g);
    RestUnfolds(j, k + 1);
  }

  lemma RestUnfolds(j: Job, k: nat)
    ensures Rest(j, k) == |Message(j, k)| + if Has(j, k) then |Content(j, k)| + Rest(j, k + 1) else 0
  {
    hide Content, Message;
  }

  lemma ReplyFalls(j: Job, w: World, n: nat, budget: nat)
    requires Inv(j, w) && w.g.err == G.NoError
    ensures var v := Act(j, w, Reply(n, budget));
            v == w || Measure(j, v) < Measure(j, w)
  {
    hide S.OnData, Content, Good, G.Sound, Message, At, Dest, DiskSafe, ResumeLine, Booked, Unsent, Unanswered;
    var b := ToShare(w);
    var m := Least(n, |b|);
    var v := Act(j, w, Reply(n, budget));
    ReplyKeeps(j, w, n, budget);
    InsideState(j, w.g);
    if m == 0 {
      assert b[..m] == "";
      NoData(w.s, budget);
      assert v.toGet == w.toGet;
      assert v == w;
    } else if m < |b| {
      assert ToShare(v) == b[m..];
      var off := AskedAt(j, w);
      BookedParts(j, w.s);
      PartTaken(w.s, b, m, ResumeLine(off), budget);
      assert v.toGet == w.toGet;
      SameUnsent(j, w.s, v.s);
    } else {
      assert ToShare(v) == "";
      SenderFalls(j, w, v, w.s.idx);
    }
  }

  lemma SameUnsent(j: Job, s: S.Share, t: S.Share)
    requires t == s.(rbuf := t.rbuf)
    ensures Unsent(j, s) == Unsent(j, t)
  {
    hide Content, Rest;
  }

  lemma AskedAt(j: Job, w: World) returns (off: nat)
    requires Inv(j, w) && w.s.state == S.WaitResume && Asked(j, w, w.s.idx)
    ensures w.s.rbuf + ToShare(w) == ResumeLine(off) + "\n" && '\n' !in ResumeLine(off) && |ResumeLine(off)| <= 27
  {
    hide Content, Good, G.Sound, At, DiskSafe, ResumeLine;
    var k := w.s.idx;
    InsideState(j, w.g);
    EntryBound(j, k);
    off := if Inside(j, w.g, k) && w.s.rbuf + ToShare(w) == ResumeLine(w.g.got) + "\n" then w.g.got else |Content(j, k)|;
    ResumeRoundTrip(off);
  }

  lemma WritableFalls(j: Job, w: World, budget: nat)
    requires Inv(j, w) && w.g.err == G.NoError
    ensures var v := Act(j, w, Writable(budget));
            v == w || Measure(j, v) < Measure(j, w)
  {
    hide S.Pump, Content, Good, G.Sound, Message, At, Dest, DiskSafe, Unsent, Unanswered, SizesBefore, Ahead, Asked,
         Flowing, Quiet, Finished, Between;
    var p := S.Pump(w.s, budget);
    BookedParts(j, w.s);
    PumpFalls(j, w.s, budget);
    assert p.s == w.s && p.bytes == "" ==> Sent(w, p) == w by {
      assert w.toGet + "" == w.toGet;
    }
  }

  /** What the sender writes it no longer has to write. */
  lemma PumpFalls(j: Job, s: S.Share, budget: nat)
    requires Good(j) && s.entries == j.entries && s.err == S.NoError && s.state != S.Ending
    requires s.state == S.Offering ==> s.idx == 0
    requires s.state == S.Streaming ==> Has(j, s.idx) && s.remaining <= |Content(j, s.idx)|
    ensures var p := S.Pump(s, budget);
            (p.s == s && p.bytes == "") || 2 * Unsent(j, p.s) + |p.bytes| < 2 * Unsent(j, s)
  {
    hide S.Pump, Content, Good, Message, Rest;
    var p := S.Pump(s, budget);
    var k := s.idx;
    RestUnfolds(j, k);
    RestUnfolds(j, k + 1);
    if s.state == S.Offering {
      PumpsFirst(j, s, budget);
      MessageNotEmpty(j, 0);
    } else if s.state == S.Streaming {
      MessageNotEmpty(j, k + 1);
      PumpStreams(j, s, budget, k);
    } else {
      S.PumpOnce(s, budget);
    }
  }

  predicate Cuts(a: Action) {
    a.CutAndRerun?
  }

  /** Whatever moves, moves nearer the end. */
  lemma ActFalls(j: Job, w: World, a: Action)
    requires Inv(j, w) && w.g.err == G.NoError && !Cuts(a) && Act(j, w, a).g.err == G.NoError
    ensures Act(j, w, a) == w || Measure(j, Act(j, w, a)) < Measure(j, w)
  {
    hide Inv, Act, Measure;
    match a
    case Deliver(n) => DeliverFalls(j, w, n);
    case Reply(n, budget) => ReplyFalls(j, w, n, budget);
    case Writable(budget) => WritableFalls(j, w, budget);
  }

  // ---- the ends never wait for each other in vain ----

  predicate Complete(j: Job, w: World) {
    && Finished(j, w.g) && w.s.state == S.Done && w.toGet == "" && ToShare(w) == ""
  }

  /** The step that is possible in a world that is not complete. */
  function NextStep(w: World): Action {
    if w.toGet != "" then Deliver(1)
    else if ToShare(w) != "" then Reply(1, 1)
    else Writable(1)
  }

  lemma NeverStuck(j: Job, w: World)
    requires Inv(j, w) && w.g.err == G.NoError && !Complete(j, w)
    ensures Act(j, w, NextStep(w)) != w
  {
    hide S.Pump, S.OnData, G.FeedAll, Content, Good, G.Sound, Message, At, Dest, DiskSafe, Booked, Asked, Ahead;
    if w.toGet == "" && ToShare(w) == "" {
      BookedParts(j, w.s);
      if w.s.state == S.Offering {
        PumpsFirst(j, w.s, 1);
      } else if w.s.state == S.Streaming {
        PumpMoves(j, w.s, w.s.idx);
      } else {
        NotAhead(j, w, w.s.idx);
      }
    }
  }

  lemma BookedParts(j: Job, s: S.Share)
    requires Booked(j, s)
    ensures s.entries == j.entries && s.err == S.NoError
    ensures s.state == S.Streaming ==> Has(j, s.idx) && s.remaining <= |Content(j, s.idx)|
  {}

  lemma NotAhead(j: Job, w: World, k: nat)
    requires Good(j) && w.toGet == ""
    ensures !Ahead(j, w, k)
    ensures ToShare(w) == "" ==> !Asked(j, w, k)
  {
    hide Content, Good, Message, At;
    MessageNotEmpty(j, k);
  }

  lemma PumpMoves(j: Job, s: S.Share, k: nat)
    requires Good(j) && Has(j, k) && s.entries == j.entries && s.err == S.NoError
    requires s.state == S.Streaming && s.idx == k && 0 < s.remaining <= |Content(j, k)|
    ensures S.Pump(s, 1).s != s
  {
    hide S.Pump, S.NextChunk, Content, Good, Message;
    S.PumpOnce(s, 1);
    ChunkFacts(j, s.remaining, k);
    var chunk := S.NextChunk(s.entries[k], s.remaining);
    var t := s.(remaining := s.remaining - |chunk|, sent := s.sent + |chunk|);
    PumpStreams(j, t, 0, k);
  }

  // ---- runs without a cut ----

  /** Every action of the run changes something and none is a cut. */
  ghost predicate Moving(j: Job, w: World, actions: seq<Action>)
    decreases |actions|
  {
    actions == [] ||
    (!Cuts(actions[0]) && Act(j, w, actions[0]) != w && Moving(j, Act(j, w, actions[0]), actions[1..]))
  }

  lemma ErrorStays(j: Job, w: World, a: Action)
    requires w.g.err != G.NoError && !Cuts(a)
    ensures Act(j, w, a).g == w.g
  {
    hide S.OnData, S.Pump;
    if a.Deliver? {
      G.Stopped(w.g, w.toGet[..Least(a.n, |w.toGet|)]);
    }
  }

  lemma {:induction false} ErrorStaysOn(j: Job, w: World, actions: seq<Action>)
    requires w.g.err != G.NoError && Moving(j, w, actions)
    ensures Run(j, w, actions).g == w.g
    decreases |actions|
  {
    hide Act;
    if actions != [] {
      ErrorStays(j, w, actions[0]);
      ErrorStaysOn(j, Act(j, w, actions[0]), actions[1..]);
    }
  }

  lemma {:induction false} RunFalls(j: Job, w: World, actions: seq<Action>)
    requires Inv(j, w) && Moving(j, w, actions) && Run(j, w, actions).g.err == G.NoError
    ensures w.g.err == G.NoError && |actions| + Measure(j, Run(j, w, actions)) <= Measure(j, w)
    decreases |actions|
  {
    hide Inv, Act, Measure;
    if w.g.err != G.NoError {
      ErrorStaysOn(j, w, actions);
      assert false;
    } else if actions != [] {
      var v := Act(j, w, actions[0]);
      ActKeeps(j, w, actions[0]);
      RunFalls(j, v, actions[1..]);
      ActFalls(j, w, actions[0]);
    }
  }

  /** While the link holds and the target lets every entry be written, a run makes at
      most Measure steps; one that can go no further has both ends done, one published
      file per entry, every file in place and the sender's count at its total. */
  lemma RunsToTheEnd(j: Job, overwrite: bool, disk: G.Disk, actions: seq<Action>)
    requires Good(j) && Resumable(j, disk)
    requires Moving(j, Fresh(j, overwrite, disk, {}), actions)
    ensures var w0 := Fresh(j, overwrite, disk, {});
            var w := Run(j, w0, actions);
            w.g.err == G.NoError ==>
              && |actions| <= Measure(j, w0)
              && (Act(j, w, NextStep(w)) == w ==>
                    && w.s.state == S.Done && w.g.done && w.g.files == |j.entries|
                    && w.s.sent == w.s.total == S.TotalSize(j.entries)
                    && (forall k: nat :: Has(j, k) ==> Delivered(j, w.g.disk, k) && InPlace(j, w.g.disk, k)))
  {
    hide Inv, Act, Measure, Delivered, InPlace, Good, Resumable, Dest;
    var w0 := Fresh(j, overwrite, disk, {});
    var w := Run(j, w0, actions);
    FreshInv(j, overwrite, disk);
    RunKeeps(j, w0, actions);
    if w.g.err == G.NoError {
      RunFalls(j, w0, actions);
      if Act(j, w, NextStep(w)) == w {
        if !Complete(j, w) {
          NeverStuck(j, w);
        }
        CompleteBooks(j, w);
        ResumeSafe(j, overwrite, disk, actions);
      }
    }
  }

  lemma CompleteBooks(j: Job, w: World)
    requires Inv(j, w) && Complete(j, w)
    ensures w.s.sent == w.s.total == S.TotalSize(j.entries)
  {
    hide DiskSafe, Good, G.Sound;
    assert j.entries[..|j.entries|] == j.entries;
  }

  // ---- when nothing is in the way ----

  ghost predicate MadeByJob(j: Job, p: string) {
    exists k: nat :: Has(j, k) && p in MadeFor(Dest(j, k), j.inDir)
  }

  /** Nothing but an earlier copy (with OVERWRITE) stands where entry k is to be written,
      and the system lets it be written. */
  ghost predicate Free(j: Job, d: G.Disk, overwrite: bool, k: nat)
    requires Has(j, k)
  {
    && (overwrite || Dest(j, k) !in d.files)
    && d.CanWrite(Dest(j, k)) && !MadeByJob(j, Dest(j, k))
    && d.CanWrite(PartOf(Dest(j, k))) && !MadeByJob(j, PartOf(Dest(j, k)))
  }

  ghost predicate Welcome(j: Job, w: World) {
    w.g.err == G.NoError && forall k: nat :: Has(j, k) && k >= w.g.files ==> Free(j, w.g.disk, w.g.overwrite, k)
  }

  lemma StillWritable(j: Job, a: G.Disk, b: G.Disk, k: nat, p: string)
    requires Has(j, k) && Touches(a, b, Dest(j, k), j.inDir) && a.CanWrite(p) && !MadeByJob(j, p)
    ensures b.CanWrite(p)
  {
    hide Dest, MadeFor, Paths;
    assert p !in MadeFor(Dest(j, k), j.inDir);
  }

  lemma FreeKept(j: Job, a: G.Disk, b: G.Disk, overwrite: bool, k: nat, i: nat)
    requires Good(j) && Has(j, k) && Has(j, i) && Touches(a, b, Dest(j, k), j.inDir) && Free(j, a, overwrite, i)
    requires i == k ==> SameAt(a, b, Dest(j, k))
    ensures Free(j, b, overwrite, i)
  {
    hide Dest, GoodEntry, MadeFor, MadeByJob;
    StillWritable(j, a, b, k, Dest(j, i));
    StillWritable(j, a, b, k, PartOf(Dest(j, i)));
    if i != k {
      assert Dest(j, i) in Paths(Dest(j, i));
      assert Dest(j, i) !in Paths(Dest(j, k));
    }
  }

  lemma WelcomeKept(j: Job, w: World, g: G.Get, h: G.Get, k: nat)
    requires Good(j) && Has(j, k) && Touches(g.disk, h.disk, Dest(j, k), j.inDir) && h.err == G.NoError
    requires forall i: nat :: Has(j, i) && i >= g.files ==> Free(j, g.disk, g.overwrite, i)
    requires h.overwrite == g.overwrite && g.files == k
    requires (h.files == k && SameAt(g.disk, h.disk, Dest(j, k))) || h.files == k + 1
    ensures forall i: nat :: Has(j, i) && i >= h.files ==> Free(j, h.disk, h.overwrite, i)
  {
    hide Dest, Content, Good, Touches, Free;
    forall i: nat | Has(j, i) && i >= h.files
      ensures Free(j, h.disk, h.overwrite, i)
    {
      FreeKept(j, g.disk, h.disk, g.overwrite, k, i);
    }
  }

  lemma FreeAccepted(j: Job, g: G.Get, k: nat)
    requires Good(j) && Has(j, k) && Resumable(j, g.disk) && g.target == j.target
    requires Free(j, g.disk, g.overwrite, k)
    ensures Accepts(j, g, k)
  {
    hide Content, Good, Resumable, KeptOf, Dest, MadeFor, Touches, MadeByJob, PlacedAt, G.Placed;
    PlacedFacts(j, g, k);
    var e := j.entries[k];
    assert PlacedAt(j, g, k) == G.Placed(g, e.size, S.FileCrc(e), e.relpath) by { PlacedIs(j, g, k); }
    var d := PlacedAt(j, g, k).disk;
    StillWritable(j, g.disk, d, k, Dest(j, k));
    StillWritable(j, g.disk, d, k, PartOf(Dest(j, k)));
  }

  lemma PlacedIs(j: Job, g: G.Get, k: nat)
    requires Has(j, k)
    ensures var e := j.entries[k];
            PlacedAt(j, g, k) == G.Placed(g, e.size, S.FileCrc(e), e.relpath)
  {}

  lemma HeaderWelcome(j: Job, w: World, k: nat)
    requires Inv(j, w) && Welcome(j, w) && Between(j, w.g, k) && Has(j, k)
    requires w.toGet == "\n" && w.g.hdr == Line(j, k)
    ensures Welcome(j, One(w))
  {
    hide Dest, Content, S.FileCrc, G.Begin, Good, Resumable, Touches, G.Sound, Line, ResumeLine, ParseHeader,
         Delivered, SameAt, KeptOf, InStep, Booked, Free, Accepts;
    MessageFacts(j, k);
    var g := w.g.(hdr := "");
    assert One(w).g == Offered(j, g, k);
    FreeAccepted(j, g, k);
    Begins(j, g, k);
    WelcomeKept(j, w, g, One(w).g, k);
  }

  lemma DataWelcome(j: Job, w: World, k: nat)
    requires Inv(j, w) && Welcome(j, w) && Inside(j, w.g, k) && w.toGet != "" && w.toGet[0] == Content(j, k)[w.g.got]
    ensures Welcome(j, One(w))
  {
    hide Crc32.Update, Dest, Content, S.FileCrc, G.FinishEntry, Good, Resumable, Touches, InStep, G.Sound, Delivered,
         SameAt, MadeByJob, Booked;
    var b := Content(j, k)[w.g.got..w.g.got + 1];
    assert b == [w.toGet[0]];
    Receives(j, w.g, k, b);
    var r := G.Receive(w.g, b);
    WelcomeKept(j, w, w.g, r, k);
    EntryFacts(j, k);
    if r.got == r.size {
      Finishes(j, r, k);
      assert Free(j, r.disk, r.overwrite, k);
      assert r.disk.CanWrite(r.dest);
      WelcomeKept(j, w, r, G.FinishEntry(r), k);
    }
  }

  lemma OneWelcome(j: Job, w: World)
    requires Inv(j, w) && Welcome(j, w) && w.toGet != ""
    ensures Welcome(j, One(w))
  {
    hide S.FileCrc, Good, G.Sound, Message, DiskSafe, Content, At, Dest, G.Step, Free, Asked;
    var k := w.s.idx;
    InsideRuns(j, w.g);
    if !G.Running(w.g) {
      StepStopped(w.g, w.toGet[0]);
    } else if w.s.state.Streaming? {
      DataWelcome(j, w, k);
    } else if Between(j, w.g, k) && w.g.hdr + w.toGet == Message(j, k) {
      ByteWelcome(j, w, k);
    } else {
      NotAsked(j, w, k);
      var all := Content(j, k - 1);
      assert w.toGet == all[w.g.got..] + Message(j, k);
      assert all[w.g.got..][0] == all[w.g.got];
      DataWelcome(j, w, k - 1);
    }
  }

  lemma NotAsked(j: Job, w: World, k: nat)
    requires w.toGet != ""
    ensures !Asked(j, w, k)
  {}

  lemma ByteWelcome(j: Job, w: World, k: nat)
    requires Inv(j, w) && Welcome(j, w) && Between(j, w.g, k) && k <= |j.entries|
    requires w.toGet != "" && w.g.hdr + w.toGet == Message(j, k)
    ensures Welcome(j, One(w))
  {
    hide S.FileCrc, G.Begin, Good, G.Sound, Line, Message, ParseHeader, DiskSafe, Content, At, Dest, Free;
    MessageFacts(j, k);
    var line, hdr := Line(j, k), w.g.hdr;
    var m := Message(j, k);
    assert m[|hdr|] == w.toGet[0] && m[|line|] == '\n';
    if |w.toGet| > 1 {
      assert |hdr| < |line| && m[|hdr|] == line[|hdr|];
      assert One(w).g == w.g.(hdr := hdr + [w.toGet[0]]);
    } else {
      assert hdr == m[..|line|] == line;
      assert w.toGet == "\n";
      if Has(j, k) {
        HeaderWelcome(j, w, k);
      }
    }
  }

  lemma {:induction false} DeliverWelcome(j: Job, w: World, n: nat)
    requires Inv(j, w) && Welcome(j, w)
    ensures Welcome(j, Act(j, w, Deliver(n)))
    decreases n
  {
    hide Inv, G.Step, Welcome;
    var m := Least(n, |w.toGet|);
    if m == 0 {
      assert w.toGet[m..] == w.toGet;
      assert w.toGet[..m] == "";
      assert Act(j, w, Deliver(n)) == w;
    } else {
      OneKeeps(j, w);
      OneWelcome(j, w);
      DeliverWelcome(j, One(w), n - 1);
      var b := w.toGet[..m];
      assert b[0] == w.toGet[0] && b[1..] == w.toGet[1..][..m - 1];
      assert w.toGet[m..] == w.toGet[1..][m - 1..];
      assert G.FeedAll(w.g, b) == G.FeedAll(G.Step(w.g, b[0]), b[1..]);
      assert Act(j, w, Deliver(n)) == Act(j, One(w), Deliver(n - 1));
    }
  }

  lemma ActWelcome(j: Job, w: World, a: Action)
    requires Inv(j, w) && Welcome(j, w) && !Cuts(a)
    ensures Welcome(j, Act(j, w, a))
  {
    hide Inv, S.OnData, S.Pump, G.FeedAll, Free;
    if a.Deliver? {
      DeliverWelcome(j, w, a.n);
    }
  }

  lemma {:induction false} RunWelcome(j: Job, w: World, actions: seq<Action>)
    requires Inv(j, w) && Welcome(j, w) && Moving(j, w, actions)
    ensures Welcome(j, Run(j, w, actions))
    decreases |actions|
  {
    hide Inv, Act, Welcome;
    if actions != [] {
      ActKeeps(j, w, actions[0]);
      ActWelcome(j, w, actions[0]);
      RunWelcome(j, Act(j, w, actions[0]), actions[1..]);
    }
  }

  /** From every state a cut-free run can leave there is a way to the end. */
  lemma {:induction false} Completes(j: Job, w: World) returns (actions: seq<Action>)
    requires Inv(j, w) && Welcome(j, w)
    ensures Moving(j, w, actions) && Complete(j, Run(j, w, actions))
    decreases Measure(j, w)
  {
    hide Inv, Act, Measure, Free;
    if Complete(j, w) {
      actions := [];
    } else {
      var a := NextStep(w);
      NeverStuck(j, w);
      ActKeeps(j, w, a);
      ActWelcome(j, w, a);
      ActFalls(j, w, a);
      var rest := Completes(j, Act(j, w, a));
      actions := [a] + rest;
      assert actions[1..] == rest;
    }
  }

  /** A get into a target where every entry is free never fails, however the streams are
      cut into pieces. */
  lemma NeverRefused(j: Job, overwrite: bool, disk: G.Disk, actions: seq<Action>)
    requires Good(j) && Resumable(j, disk)
    requires forall k: nat :: Has(j, k) ==> Free(j, disk, overwrite, k)
    requires Moving(j, Fresh(j, overwrite, disk, {}), actions)
    ensures Run(j, Fresh(j, overwrite, disk, {}), actions).g.err == G.NoError
  {
    hide Act, Free, Good, Resumable;
    FreshInv(j, overwrite, disk);
    RunWelcome(j, Fresh(j, overwrite, disk, {}), actions);
  }

  // ---- one file, for instance ----

  function OneFile(rel: string, content: string, target: string, inDir: bool): Job {
    Job([S.Entry(rel, |content|, Some(content))], target, inDir)
  }

  /** A disk with nothing on it but the target directory, if the target is one. */
  function EmptyDisk(target: string, inDir: bool): G.Disk {
    G.Disk(map[], if inDir then {G.TargetDir(target)} else {}, {})
  }

  lemma {:induction false} ParentShorter(p: string)
    requires p != ""
    ensures |G.Parent(p)| < |p|
    decreases |p|
  {
    if |p| > 1 {
      ParentShorter(p[..|p| - 1]);
    }
  }

  lemma OneFileGood(rel: string, content: string, target: string, inDir: bool)
    requires PlainPath(rel) && |rel| <= 8000 && |content| <= Text.MAX64
    ensures Good(OneFile(rel, content, target, inDir))
  {
    hide Crc32.Of, Text.Dec, Text.Hex8;
    var j := OneFile(rel, content, target, inDir);
    var e := j.entries[0];
    assert content[..Least(e.size, |content|)] == content;
    DecShort(e.size);
    HexNumber(S.FileCrc(e));
    assert GoodEntry(e);
  }

  lemma OneFileFree(rel: string, content: string, target: string, inDir: bool)
    requires !inDir || |G.TargetDir(target)| < |Dest(OneFile(rel, content, target, inDir), 0)|
    ensures Free(OneFile(rel, content, target, inDir), EmptyDisk(target, inDir), false, 0)
  {
    hide G.Parent;
    var j := OneFile(rel, content, target, inDir);
    var dest := Dest(j, 0);
    if inDir {
      ParentShorter(dest);
      forall p | p in MadeFor(dest, inDir)
        ensures |p| < |dest|
      {}
    }
    forall k: nat | Has(j, k)
      ensures k == 0
    {}
  }

  /** Any file with a plain path reaches an empty disk. */
  lemma OneFileArrives(rel: string, content: string, target: string, inDir: bool) returns (actions: seq<Action>)
    requires PlainPath(rel) && |rel| <= 8000 && |content| <= Text.MAX64
    ensures var j := OneFile(rel, content, target, inDir);
            var w := Run(j, Fresh(j, false, EmptyDisk(target, inDir), {}), actions);
            && w.g.done && w.g.files == 1
            && (inDir && SafePath.IsProper(rel) ==>
                  var p := (if target == "" then "." else target) + "/" + rel;
                  p in w.g.disk.files && w.g.disk.files[p] == content)
            && (!inDir ==> target in w.g.disk.files && w.g.disk.files[target] == content)
            && Delivered(j, w.g.disk, 0)
  {
    hide Good, Act, Run, Free, SafePath.IsProper;
    var j, disk := OneFile(rel, content, target, inDir), EmptyDisk(target, inDir);
    OneFileGood(rel, content, target, inDir);
    assert Resumable(j, disk) by {
      hide MetaMatches, Dest;
    }
    OneFileFree(rel, content, target, inDir);
    var w0 := Fresh(j, false, disk, {});
    FreshInv(j, false, disk);
    assert Welcome(j, w0) by {
      forall k: nat | Has(j, k)
        ensures k == 0
      {}
    }
    actions := Completes(j, w0);
    ResumeSafe(j, false, disk, actions);
    assert Has(j, 0) && Content(j, 0) == content;
  }
}
