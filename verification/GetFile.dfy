/** GetFileEnd (src/peer/pipes.cpp): the receiving end of the resumable file protocol.
    The specification is a machine that takes one byte at a time; the class is the
    source's loop over arbitrary pieces, proved equal to it. */
module GetFile {
  import opened BitFacts
  import opened FileLines
  import Crc32
  import SafePath

  /** The file system as the receiver sees it: file contents by path, directories, and
      paths the system refuses to open for writing. Writes that are let through land
      in order. */
  datatype Disk = Disk(files: map<string, string>, dirs: set<string>, blocked: set<string>) {
    predicate Exists(p: string) {
      p in files || p in dirs
    }

    predicate CanWrite(p: string) {
      p !in dirs && p !in blocked
    }

    function Content(p: string): string {
      if p in files then files[p] else ""
    }

    function Write(p: string, content: string): Disk {
      this.(files := files[p := content])
    }

    function Remove(ps: set<string>): Disk {
      this.(files := files - ps)
    }

    /** mkdirs: every prefix that ends at a slash or at the end, unless a file is in
        the way. */
    function MakeDirs(dir: string): Disk {
      this.(dirs := dirs + (PrefixDirs(dir) - files.Keys))
    }
  }

  function PrefixDirs(dir: string): set<string> {
    set i | 1 <= i <= |dir| && (i == |dir| || dir[i] == '/') && dir[..i] != "." :: dir[..i]
  }

  /** The directory part of a path that has one. */
  function Parent(p: string): string {
    if p == [] then ""
    else if SafePath.Last(p) == '/' then SafePath.Front(p)
    else Parent(SafePath.Front(p))
  }

  datatype State = Header | Recv | Done

  /** The end's error text, by cause. */
  datatype Error =
    | NoError
    | NoHeader                        // the header is longer than 8192 bytes
    | BadOffer(why: HeaderError)
    | AlreadyExists(path: string)     // ... and OVERWRITE was not given
    | CannotWrite(path: string)
    | ChecksumMismatch(path: string)
    | RenameFailed(path: string)
    | Incomplete                      // the connection closed early

  /** Everything the end remembers. `out` is what it has sent back, `published` the
      destinations it has renamed a finished file to, `shut` that it asked to close. */
  datatype Get = Get(
    target: string, overwrite: bool,
    state: State, hdr: string,
    dest: string, part: string, meta: string, rel: string,
    isOpen: bool, size: nat, got: nat, want: nat, crc: Word,
    files: nat, done: bool, err: Error,
    shut: bool, out: string, published: set<string>, disk: Disk)

  function Fresh(target: string, overwrite: bool, disk: Disk): Get {
    Get(target, overwrite, Header, "", "", "", "", "", false, 0, 0, 0, ZERO, 0, false, NoError, false, "", {}, disk)
  }

  predicate Running(g: Get) {
    !g.done && g.err == NoError
  }

  function Fail(g: Get, why: Error): Get {
    g.(err := why, isOpen := false, shut := true)
  }

  /** finish_entry: publish the completed file, or drop it when its checksum is wrong. */
  function FinishEntry(g: Get): Get {
    var h := g.(isOpen := false);
    if Number(h.crc) != h.want then Discarded(h)
    else if h.part !in h.disk.files || !h.disk.CanWrite(h.dest) then Fail(h, RenameFailed(h.dest))
    else Renamed(h)
  }

  function Discarded(g: Get): Get {
    Fail(g.(disk := g.disk.Remove({g.part, g.meta})), ChecksumMismatch(g.dest))
  }

  function Renamed(g: Get): Get
    requires g.part in g.disk.files
  {
    g.(disk := g.disk.Remove({g.part, g.meta}).Write(g.dest, g.disk.files[g.part]),
       files := g.files + 1, state := Header, published := g.published + {g.dest})
  }

  function TargetDir(target: string): string {
    if target == "" then "." else target
  }

  /** A directory target places files by (reduced) path; any other is the file itself. */
  function Destination(target: string, inDir: bool, rel: string): string {
    if inDir then TargetDir(target) + "/" + SafePath.Safe(rel) else target
  }

  /** Step 1: where the entry goes; its directory is made. */
  function Placed(g: Get, size: nat, want: nat, rel: string): Get {
    var inDir := TargetDir(g.target) in g.disk.dirs;
    var dest := Destination(g.target, inDir, rel);
    g.(size := size, want := want, rel := rel, dest := dest,
       disk := if inDir then g.disk.MakeDirs(Parent(dest)) else g.disk)
  }

  /** Is there a partial file of this very offer, not longer than the offer? */
  predicate KeepsPart(g: Get) {
    g.part in g.disk.files && g.meta in g.disk.files &&
    MetaMatches(g.disk.files[g.meta], g.size, g.want, g.rel) && |g.disk.files[g.part]| <= g.size
  }

  function KeptBytes(g: Get): string {
    if KeepsPart(g) then g.disk.Content(g.part) else ""
  }

  /** Step 2: the bytes already here and their checksum. */
  function WithPart(g: Get): Get {
    var h := g.(part := g.dest + ".part", meta := g.dest + ".part.meta", got := 0);
    h.(crc := Crc32.Update(ZERO, KeptBytes(h)))
  }

  /** Step 3: open the partial file to append, or start it and its record afresh. */
  function OpenPart(g: Get, off: nat): Get {
    if off > 0 then g.(isOpen := g.disk.CanWrite(g.part))
    else
      var d1 := if g.disk.CanWrite(g.part) then g.disk.Write(g.part, "") else g.disk;
      var d2 := if g.disk.CanWrite(g.meta) then d1.Write(g.meta, MetaText(g.size, g.want, g.rel)) else d1;
      g.(disk := d2, isOpen := g.disk.CanWrite(g.part))
  }

  function Begin(g: Get, size: nat, want: nat, rel: string): Get {
    var p := Placed(g, size, want, rel);
    if !p.overwrite && p.disk.Exists(p.dest) then Fail(p, AlreadyExists(p.dest))
    else
      var w := WithPart(p);
      var off := |KeptBytes(w)|;
      var o := OpenPart(w, off);
      if !o.isOpen then Fail(o, CannotWrite(o.part)) else Receiving(o, off)
  }

  function Receiving(g: Get, off: nat): Get {
    var h := g.(got := off, out := g.out + ResumeLine(off) + "\n", state := Recv);
    if off == g.size then FinishEntry(h) else h
  }

  function HandleHeader(g: Get, line: string): Get {
    match ParseHeader(line)
    case End => g.(done := true, state := Done, shut := true)
    case Bad(why) => Fail(g, BadOffer(why))
    case Offer(size, crc, rel) => Begin(g, size, crc, rel)
  }

  function Receive(g: Get, b: string): Get {
    g.(disk := g.disk.Write(g.part, g.disk.Content(g.part) + b), crc := Crc32.Update(g.crc, b), got := g.got + |b|)
  }

  /** One byte from the tunnel. */
  function Step(g: Get, c: char): Get {
    if !Running(g) then g
    else match g.state
    case Header =>
      if c == '\n' then HandleHeader(g.(hdr := ""), g.hdr)
      else
        var h := g.(hdr := g.hdr + [c]);
        if |h.hdr| > MAX_HEADER then Fail(h, NoHeader) else h
    case Recv =>
      var h := Receive(g, [c]);
      if h.got == g.size then FinishEntry(h) else h
    case Done => g
  }

  function FeedAll(g: Get, b: string): Get
    decreases |b|
  {
    if b == [] then g else FeedAll(Step(g, b[0]), b[1..])
  }

  function OnClosed(g: Get): Get {
    if !Running(g) then g
    else g.(isOpen := false, err := Incomplete)
  }

  // ---- what every byte keeps ----

  /** While receiving, the file is open, incomplete, as long as counted, and its
      checksum is the running one. */
  predicate Sound(g: Get) {
    && (g.done <==> g.state == Done)
    && (Running(g) && g.state == Header ==> |g.hdr| <= MAX_HEADER)
    && (Running(g) && g.state == Recv ==>
          && g.isOpen && g.hdr == "" && g.got < g.size
          && g.part in g.disk.files && |g.disk.files[g.part]| == g.got
          && g.crc == Crc32.Update(ZERO, g.disk.files[g.part]))
  }

  /** The open partial file holds exactly the first `off` bytes of the entry. */
  predicate Opened(g: Get, off: nat) {
    && Running(g) && g.hdr == "" && g.isOpen && off <= g.size
    && g.part in g.disk.files && |g.disk.files[g.part]| == off
    && g.crc == Crc32.Update(ZERO, g.disk.files[g.part])
  }

  lemma ReceivingSound(g: Get, off: nat)
    requires Opened(g, off)
    ensures Sound(Receiving(g, off))
  {
    hide Crc32.Update, ResumeLine, FinishEntry;
    FinishSound(g.(got := off, out := g.out + ResumeLine(off) + "\n", state := Recv));
  }

  lemma OpenPartOpens(g: Get)
    requires Running(g) && g.hdr == "" && |g.meta| != |g.part| && g.crc == Crc32.Update(ZERO, KeptBytes(g))
    ensures var o := OpenPart(g, |KeptBytes(g)|);
            && o == g.(disk := o.disk, isOpen := o.isOpen)
            && (o.isOpen ==> Opened(o, |KeptBytes(g)|))
  {
    hide Crc32.Update, MetaText, MetaMatches;
  }

  lemma WithPartReady(g: Get)
    requires Running(g) && g.hdr == ""
    ensures var w := WithPart(g);
            Running(w) && w.hdr == "" && |w.meta| != |w.part| && w.crc == Crc32.Update(ZERO, KeptBytes(w))
            && w.state == g.state
  {
    hide Crc32.Update, MetaMatches;
  }

  lemma BeginSound(g: Get, size: nat, want: nat, rel: string)
    requires Sound(g) && Running(g) && g.state == Header && g.hdr == ""
    ensures Sound(Begin(g, size, want, rel))
  {
    hide Crc32.Update, KeptBytes, WithPart, Receiving, OpenPart, Destination, Parent, PrefixDirs;
    var p := Placed(g, size, want, rel);
    WithPartReady(p);
    var w := WithPart(p);
    OpenPartOpens(w);
    var o := OpenPart(w, |KeptBytes(w)|);
    if o.isOpen {
      ReceivingSound(o, |KeptBytes(w)|);
    }
  }

  lemma FinishSound(g: Get)
    requires Running(g) && g.hdr == "" && g.state != Done
    ensures Sound(FinishEntry(g))
  {
    hide Crc32.Update, Number;
  }

  lemma StepSound(g: Get, c: char)
    requires Sound(g)
    ensures Sound(Step(g, c))
  {
    hide Crc32.Update, Begin, ParseHeader, FinishEntry;
    if Running(g) && g.state == Header && c == '\n' {
      var h := ParseHeader(g.hdr);
      if h.Offer? {
        BeginSound(g.(hdr := ""), h.size, h.crc, h.rel);
      }
    } else if Running(g) && g.state == Recv {
      Crc32.UpdateComposes(ZERO, g.disk.files[g.part], [c]);
      FinishSound(Receive(g, [c]));
    }
  }

  // ---- pieces ----

  lemma {:induction false} FeedConcat(g: Get, a: string, b: string)
    ensures FeedAll(g, a + b) == FeedAll(FeedAll(g, a), b)
    decreases |a|
  {
    hide Step;
    if a == [] {
      assert a + b == b;
    } else {
      assert (a + b)[0] == a[0] && (a + b)[1..] == a[1..] + b;
      FeedConcat(Step(g, a[0]), a[1..], b);
    }
  }

  lemma {:induction false} FeedSound(g: Get, b: string)
    requires Sound(g)
    ensures Sound(FeedAll(g, b))
    decreases |b|
  {
    hide Step, Sound;
    if b != [] {
      StepSound(g, b[0]);
      FeedSound(Step(g, b[0]), b[1..]);
    }
  }

  lemma {:induction false} Stopped(g: Get, b: string)
    requires !Running(g)
    ensures FeedAll(g, b) == g
    decreases |b|
  {
    if b != [] {
      Stopped(g, b[1..]);
    }
  }

  /** A header is read to the end of its line. */
  lemma {:induction false} LineFed(g: Get, line: string)
    requires Running(g) && g.state == Header && '\n' !in line && |g.hdr| + |line| <= MAX_HEADER
    ensures FeedAll(g, line + "\n") == HandleHeader(g.(hdr := ""), g.hdr + line)
    decreases |line|
  {
    hide HandleHeader;
    if line == "" {
      assert line + "\n" == "\n" && g.hdr + line == g.hdr;
    } else {
      assert (line + "\n")[0] == line[0] && (line + "\n")[1..] == line[1..] + "\n";
      assert g.hdr + [line[0]] + line[1..] == g.hdr + line;
      LineFed(g.(hdr := g.hdr + [line[0]]), line[1..]);
    }
  }

  /** Another protocol's first line is refused, the last line of this one ends it, and
      neither touches the disk. */
  lemma OtherLines(g: Get, line: string)
    requires Running(g) && g.state == Header && g.hdr == "" && '\n' !in line && |line| <= MAX_HEADER
    ensures !StartsWith(line, "SPLF2 ") && line != "SPLF2-END" ==>
              FeedAll(g, line + "\n") == g.(err := BadOffer(NotFileProtocol), isOpen := false, shut := true)
    ensures FeedAll(g, "SPLF2-END\n") == g.(done := true, state := Done, shut := true)
  {
    hide FeedAll, Begin, ParseOffer;
    LineFed(g, line);
    LineFed(g, "SPLF2-END");
    assert "" + line == line && "SPLF2-END" + "\n" == "SPLF2-END\n" && "" + "SPLF2-END" == "SPLF2-END";
  }

  /** A header that is still no line after 8192 bytes is refused, whatever follows. */
  lemma {:induction false} HeaderTooLong(g: Get, b: string)
    requires Running(g) && g.state == Header && |g.hdr| <= MAX_HEADER < |g.hdr| + |b|
    requires forall i :: 0 <= i < MAX_HEADER + 1 - |g.hdr| ==> b[i] != '\n'
    ensures FeedAll(g, b) == g.(hdr := g.hdr + b[..MAX_HEADER + 1 - |g.hdr|], err := NoHeader, isOpen := false, shut := true)
    decreases |b|
  {
    var h := g.(hdr := g.hdr + [b[0]]);
    if |h.hdr| <= MAX_HEADER {
      assert forall i :: 0 <= i < |b| - 1 ==> b[1..][i] == b[i + 1];
      HeaderTooLong(h, b[1..]);
      assert [b[0]] + b[1..][..MAX_HEADER + 1 - |h.hdr|] == b[..MAX_HEADER + 1 - |g.hdr|];
      assert g.hdr + [b[0]] + b[1..][..MAX_HEADER + 1 - |h.hdr|] == g.hdr + b[..MAX_HEADER + 1 - |g.hdr|];
    } else {
      assert b[..1] == [b[0]];
      Stopped(Fail(h, NoHeader), b[1..]);
    }
  }

  /** A piece of file data that fits the current entry is taken as a whole. */
  lemma {:induction false} FeedPiece(g: Get, b: string)
    requires Sound(g) && Running(g) && g.state == Recv && 0 < |b| <= g.size - g.got
    ensures FeedAll(g, b) == (var h := Receive(g, b); if h.got == g.size then FinishEntry(h) else h)
    decreases |b|
  {
    hide Crc32.Update, FinishEntry;
    var h := Receive(g, [b[0]]);
    assert b == [b[0]] + b[1..];
    if |b| == 1 {
      assert b[1..] == [] && b == [b[0]];
    } else {
      StepSound(g, b[0]);
      assert Step(g, b[0]) == h;
      FeedPiece(h, b[1..]);
      Crc32.UpdateComposes(g.crc, [b[0]], b[1..]);
      var c := g.disk.Content(g.part);
      assert c + [b[0]] + b[1..] == c + b;
      assert g.disk.Write(g.part, c + [b[0]]).Write(g.part, c + b) == g.disk.Write(g.part, c + b);
      assert Receive(h, b[1..]) == Receive(g, b);
    }
  }

  /** Feeding a stream in pieces, however cut, is feeding it whole. */
  lemma {:induction false} CutAnywhere(g: Get, pieces: seq<string>)
    ensures FeedPieces(g, pieces) == FeedAll(g, Flat(pieces))
    decreases |pieces|
  {
    hide FeedAll;
    if pieces == [] {
      FedNothing(g);
    } else {
      FeedConcat(g, pieces[0], Flat(pieces[1..]));
      CutAnywhere(FeedAll(g, pieces[0]), pieces[1..]);
    }
  }

  lemma FedNothing(g: Get)
    ensures FeedAll(g, "") == g
  {}

  function FeedPieces(g: Get, pieces: seq<string>): Get
    decreases |pieces|
  {
    if pieces == [] then g else FeedPieces(FeedAll(g, pieces[0]), pieces[1..])
  }

  function Flat(pieces: seq<string>): string {
    if pieces == [] then "" else pieces[0] + Flat(pieces[1..])
  }

  // ---- what is published is what was announced ----

  /** A byte that completes an entry puts exactly the announced number of bytes, with the
      announced checksum, at the destination; any other byte publishes nothing. */
  lemma PublishedAsAnnounced(g: Get, c: char)
    requires Sound(g)
    ensures var h := Step(g, c);
            (h.files == g.files && h.published == g.published) ||
            (h.files == g.files + 1 && h.published == g.published + {h.dest} && h.dest in h.disk.files
             && |h.disk.files[h.dest]| == h.size && Crc32.Of(h.disk.files[h.dest]) == h.want)
  {
    hide Crc32.Update, Number, Begin, ParseHeader, FinishEntry;
    if Running(g) && g.state == Header && c == '\n' {
      var h := ParseHeader(g.hdr);
      if h.Offer? {
        BeginPublishes(g.(hdr := ""), h.size, h.crc, h.rel);
      }
    } else if Running(g) && g.state == Recv {
      Crc32.UpdateComposes(ZERO, g.disk.files[g.part], [c]);
      if g.got + 1 == g.size {
        FinishPublishes(Receive(g, [c]));
      }
    }
  }

  lemma FinishPublishes(g: Get)
    requires Running(g) && g.part in g.disk.files && |g.disk.files[g.part]| == g.size
    requires g.crc == Crc32.Update(ZERO, g.disk.files[g.part])
    ensures var h := FinishEntry(g);
            h.size == g.size && h.want == g.want && h.dest == g.dest &&
            ((h.files == g.files && h.published == g.published) ||
             (h.files == g.files + 1 && h.published == g.published + {h.dest} && h.dest in h.disk.files
              && |h.disk.files[h.dest]| == h.size && Crc32.Of(h.disk.files[h.dest]) == h.want))
  {
    hide Crc32.Update, Number;
  }

  lemma BeginPublishes(g: Get, size: nat, want: nat, rel: string)
    requires Sound(g) && Running(g) && g.hdr == ""
    ensures var h := Begin(g, size, want, rel);
            (h.files == g.files && h.published == g.published) ||
            (h.files == g.files + 1 && h.published == g.published + {h.dest} && h.dest in h.disk.files
             && |h.disk.files[h.dest]| == h.size && Crc32.Of(h.disk.files[h.dest]) == h.want)
  {
    hide Crc32.Update, Number, KeptBytes, WithPart, OpenPart, Destination, Parent, PrefixDirs, FinishEntry;
    var p := Placed(g, size, want, rel);
    WithPartReady(p);
    WithPartFrame(p);
    var w := WithPart(p);
    OpenPartOpens(w);
    var off := |KeptBytes(w)|;
    var o := OpenPart(w, off);
    if o.isOpen && off == size {
      FinishPublishes(o.(got := off, out := o.out + ResumeLine(off) + "\n", state := Recv));
    }
  }

  lemma WithPartFrame(g: Get)
    ensures var w := WithPart(g);
            w == g.(part := w.part, meta := w.meta, got := 0, crc := w.crc)
  {
    hide Crc32.Update, KeptBytes;
  }

  /** A transfer damaged inside four consecutive bytes is never published: if `truth` is
      the announced content, the last byte of a partial file that differs from it only
      there makes finish_entry fail, drop the partial file and leave everything else
      alone. */
  lemma DamageRefused(g: Get, c: char, truth: string, i: nat)
    requires Sound(g) && Running(g) && g.state == Recv && g.got + 1 == g.size
    requires g.want == Crc32.Of(truth)
    requires var kept := g.disk.files[g.part] + [c];
             kept != truth && Crc32.DifferWithinFour(kept, truth, i) && Crc32.AreBytes(kept) && Crc32.AreBytes(truth)
    ensures var h := Step(g, c);
            && h.err == ChecksumMismatch(g.dest)
            && h.files == g.files && h.published == g.published
            && h.disk == g.disk.Remove({g.part, g.meta})
  {
    hide Crc32.Update, Number;
    var kept := g.disk.files[g.part] + [c];
    Crc32.BurstSeen(kept, truth, i);
    Crc32.UpdateComposes(ZERO, g.disk.files[g.part], [c]);
    assert g.disk.Write(g.part, kept).Remove({g.part, g.meta}).files == g.disk.Remove({g.part, g.meta}).files;
  }

  // ---- the class of the source ----

  class GetFileEnd {
    const target: string
    const overwrite: bool
    var state: State
    var hdr: string
    var dest: string
    var part: string
    var meta: string
    var relpath: string
    var isOpen: bool
    var size: nat
    var got: nat
    var wantCrc: nat
    var crc: Word
    var files: nat
    var done: bool
    var err: Error
    var shut: bool
    var toTunnel: string
    var published: set<string>
    var disk: Disk

    ghost function View(): Get
      reads this
    {
      Get(target, overwrite, state, hdr, dest, part, meta, relpath, isOpen, size, got, wantCrc, crc,
          files, done, err, shut, toTunnel, published, disk)
    }

    constructor (target: string, overwrite: bool, disk: Disk)
      ensures View() == Fresh(target, overwrite, disk) && Sound(View())
    {
      this.target, this.overwrite := target, overwrite;
      state, hdr := Header, "";
      dest, part, meta, relpath := "", "", "", "";
      isOpen, size, got, wantCrc, crc := false, 0, 0, 0, ZERO;
      files, done, err := 0, false, NoError;
      shut, toTunnel, published := false, "", {};
      this.disk := disk;
    }

    method DoFail(why: Error)
      modifies this
      ensures View() == Fail(old(View()), why)
    {
      err := why;
      isOpen := false;
      shut := true;
    }

    /** on_tunnel_data: whatever the pieces, the state, the disk and the answers are
        those of the byte-at-a-time machine; the loop always makes progress. */
    method OnTunnelData(b: string)
      requires Sound(View())
      modifies this
      ensures View() == FeedAll(old(View()), b) && Sound(View())
    {
      hide FeedAll, Sound;
      var off := 0;
      ghost var g0 := View();
      assert b[0..] == b;
      while off < |b| && !done && err == NoError
        invariant 0 <= off <= |b|
        invariant Sound(View())
        invariant FeedAll(View(), b[off..]) == FeedAll(g0, b)
        decreases |b| - off
      {
        if state == Header {
          off := HeaderBytes(b, off);
        } else {
          off := FileBytes(b, off);
        }
      }
      if off < |b| {
        Stopped(View(), b[off..]);
      } else {
        assert b[off..] == "";
        FedNothing(View());
      }
    }

    /** One turn of the loop in the Recv state: as much as is here and still wanted. */
    method FileBytes(b: string, off0: nat) returns (off: nat)
      requires Sound(View()) && !done && err == NoError && state != Header && off0 < |b|
      modifies this
      ensures off0 < off <= |b| && Sound(View())
      ensures FeedAll(View(), b[off..]) == FeedAll(old(View()), b[off0..])
    {
      hide Crc32.Update, FinishEntry, FeedAll;
      var keep := if |b| - off0 < size - got then |b| - off0 else size - got;
      var piece := b[off0..off0 + keep];
      ghost var g := View();
      off := off0 + keep;
      assert b[off0..] == piece + b[off..];
      FeedConcat(g, piece, b[off..]);
      FeedPiece(g, piece);
      FeedSound(g, piece);
      DoReceive(piece);
      if got == size {
        DoFinishEntry();
      }
    }

    method DoReceive(piece: string)
      modifies this
      ensures View() == Receive(old(View()), piece)
    {
      hide Crc32.Update;
      disk := disk.Write(part, disk.Content(part) + piece);
      TableUpdate(piece);
      got := got + |piece|;
    }

    /** crc_ = crc32_update(crc_, ...): the table loop of Crc32.Table. */
    method TableUpdate(piece: string)
      modifies this`crc
      ensures crc == Crc32.Update(old(crc), piece)
    {
      var table := new Crc32.Table();
      var c := table.CrcUpdate(crc, piece);
      crc := c;
    }

    /** The inner loop: header bytes up to a newline, or until the header is too long. */
    method HeaderBytes(b: string, off0: nat) returns (off: nat)
      requires Sound(View()) && !done && err == NoError && state == Header && off0 < |b|
      modifies this
      ensures off0 < off <= |b| && Sound(View())
      ensures FeedAll(View(), b[off..]) == FeedAll(old(View()), b[off0..])
    {
      hide Crc32.Update, HandleHeader, FinishEntry, Sound;
      off := off0;
      ghost var g0 := View();
      while off < |b|
        invariant off0 <= off <= |b|
        invariant Sound(View()) && !done && err == NoError && state == Header
        invariant FeedAll(View(), b[off..]) == FeedAll(g0, b[off0..])
      {
        var c := b[off];
        ghost var g := View();
        StepSound(g, c);
        assert b[off..][0] == c && b[off..][1..] == b[off + 1..];
        off := off + 1;
        if c == '\n' {
          var line := hdr;
          hdr := "";
          DoHandleHeader(line);
          return;
        }
        hdr := hdr + [c];
        if |hdr| > MAX_HEADER {
          DoFail(NoHeader);
          return;
        }
      }
    }

    method DoHandleHeader(line: string)
      modifies this
      ensures View() == HandleHeader(old(View()), line)
    {
      hide Crc32.Update, FinishEntry, MetaText, Parent, PrefixDirs, MetaMatches, SafePath.Safe;
      var h := ParseHeader(line);
      match h
      case End =>
        done, state, shut := true, Done, true;
      case Bad(why) =>
        DoFail(BadOffer(why));
      case Offer(n, c, rel) =>
        DoBegin(n, c, rel);
    }

    /** The rest of handle_header. */
    method DoBegin(n: nat, c: nat, rel: string)
      modifies this
      ensures View() == Begin(old(View()), n, c, rel)
    {
      hide Placed, WithPart, KeptBytes, OpenPart, FinishEntry, ResumeLine;
      Place(n, c, rel);
      if !overwrite && disk.Exists(dest) {
        DoFail(AlreadyExists(dest));
        return;
      }
      var off := KeepPart();
      DoOpenPart(off);
      if !isOpen {
        DoFail(CannotWrite(part));
        return;
      }
      got := off;
      toTunnel := toTunnel + ResumeLine(off) + "\n";
      state := Recv;
      if got == size {
        DoFinishEntry();
      }
    }

    method Place(n: nat, c: nat, rel: string)
      modifies this
      ensures View() == Placed(old(View()), n, c, rel)
    {
      hide Parent, SafePath.Safe, Disk.MakeDirs;
      size, wantCrc, relpath := n, c, rel;
      var dir := if target == "" then "." else target;
      if dir in disk.dirs {
        var safe := SafePath.SafeRelpath(relpath);
        dest := dir + "/" + safe;
        disk := disk.MakeDirs(Parent(dest));
      } else {
        dest := target;
      }
    }

    method KeepPart() returns (off: nat)
      modifies this
      ensures View() == WithPart(old(View())) && off == |KeptBytes(View())|
    {
      hide Crc32.Update, MetaMatches;
      part := dest + ".part";
      meta := dest + ".part.meta";
      crc, got, off := ZERO, 0, 0;
      Crc32.UpdateNothing(ZERO);
      if part in disk.files && meta in disk.files {
        if MetaMatches(disk.files[meta], size, wantCrc, relpath) {
          var have := |disk.files[part]|;
          if have <= size {
            off := have;
            TableUpdate(disk.files[part]);
          }
        }
      }
    }

    method DoOpenPart(off: nat)
      modifies this
      ensures View() == OpenPart(old(View()), off)
    {
      hide MetaText;
      isOpen := disk.CanWrite(part);
      if off == 0 {
        var canMeta := disk.CanWrite(meta);
        if isOpen {
          disk := disk.Write(part, "");
        }
        if canMeta {
          disk := disk.Write(meta, MetaText(size, wantCrc, relpath));
        }
      }
    }

    method DoFinishEntry()
      modifies this
      ensures View() == FinishEntry(old(View()))
    {
      hide Number, Discarded, Renamed;
      isOpen := false;
      if Number(crc) != wantCrc {
        Discard();
      } else if part !in disk.files || !disk.CanWrite(dest) {
        DoFail(RenameFailed(dest));
      } else {
        Rename();
      }
    }

    method Discard()
      modifies this
      ensures View() == Discarded(old(View()))
    {
      disk := disk.Remove({part, meta});
      DoFail(ChecksumMismatch(dest));
    }

    method Rename()
      requires part in disk.files
      modifies this
      ensures View() == Renamed(old(View()))
    {
      disk := disk.Remove({part, meta}).Write(dest, disk.files[part]);
      published := published + {dest};
      files := files + 1;
      state := Header;
    }

    /** on_tunnel_closed: the partial file and its record stay for the next run. */
    method OnTunnelClosed()
      modifies this
      ensures View() == OnClosed(old(View())) && disk == old(disk)
    {
      if done || err != NoError {
        return;
      }
      isOpen := false;
      err := Incomplete;
    }
  }
}
