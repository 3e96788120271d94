/** Where a received file goes (src/peer/pipes.cpp:314-326, 374-395): whatever bytes the
    peer sends, the receiving end publishes and touches nothing but files below its target
    directory, or its one target file and what it keeps beside that. */
module GetPlace {
  import opened BitFacts
  import opened FileLines
  import opened GetFile
  import S = SafePath

  /** The directory that stands for a target. */
  function Base(target: string): string {
    if target == "" then "." else target
  }

  /** The directory, a slash, and a path without empty, "." or ".." components. */
  predicate Below(base: string, p: string) {
    |base| < |p| && p[..|base|] == base && p[|base|] == '/' && S.IsProper(p[|base| + 1..])
  }

  /** Where a file may be stored. */
  predicate MayStore(target: string, inDir: bool, p: string) {
    if inDir then Below(Base(target), p) else p == target
  }

  /** Such a file, the partial file for it, or the record beside that. */
  ghost predicate MayTouch(target: string, inDir: bool, p: string) {
    exists d :: MayStore(target, inDir, d) && (p == d || p == d + ".part" || p == d + ".part.meta")
  }

  /** An offer goes below a directory under its own path, if that is proper, and otherwise
      under a proper one; a target that is no directory is the file itself. */
  lemma OfferStored(g: Get, size: nat, want: nat, rel: string)
    ensures var h := Begin(g, size, want, rel);
            var inDir := Base(g.target) in g.disk.dirs;
            && MayStore(g.target, inDir, h.dest)
            && (inDir && S.IsProper(rel) ==> h.dest == Base(g.target) + "/" + rel)
  {
    BeginFrame(g, size, want, rel);
    PlacedFrame(g, size, want, rel);
    hide S.Split, S.Safe, S.Proper, Begin, Placed;
    var base := Base(g.target);
    var d := base + "/" + S.Safe(rel);
    S.SafeStaysInside(rel);
    assert d[|base| + 1..] == S.Safe(rel) && d[..|base|] == base && d[|base|] == '/';
  }

  /** Only the three files of one entry differ. */
  ghost predicate Around(a: Disk, b: Disk, dest: string) {
    && b.dirs == a.dirs
    && (forall p :: p != dest && p != dest + ".part" && p != dest + ".part.meta" ==>
          (p in b.files <==> p in a.files) && (p in a.files ==> b.files[p] == a.files[p]))
  }

  predicate OwnPaths(g: Get) {
    g.part == g.dest + ".part" && g.meta == g.dest + ".part.meta"
  }

  /** Nothing but the disk and the end of the entry changes. */
  ghost predicate EntryDone(g: Get, h: Get) {
    && h.target == g.target && h.dest == g.dest && h.part == g.part && h.meta == g.meta
    && (Running(h) ==> h.state == Header)
    && (h.published == g.published || h.published == g.published + {g.dest})
    && Around(g.disk, h.disk, g.dest)
  }

  lemma FinishFrame(g: Get)
    requires OwnPaths(g)
    ensures EntryDone(g, FinishEntry(g))
  {
    hide Number;
  }

  lemma OpenFrame(g: Get, off: nat)
    requires OwnPaths(g)
    ensures var o := OpenPart(g, off);
            o == g.(disk := o.disk, isOpen := o.isOpen) && Around(g.disk, o.disk, g.dest)
  {
    hide MetaText;
  }

  lemma PlacedFrame(g: Get, size: nat, want: nat, rel: string)
    ensures var p := Placed(g, size, want, rel);
            && p == g.(size := size, want := want, rel := rel, dest := p.dest, disk := p.disk)
            && p.disk.files == g.disk.files
            && p.dest == Destination(g.target, TargetDir(g.target) in g.disk.dirs, rel)
  {
    hide Destination, PrefixDirs, Parent;
  }

  /** Beginning an entry settles its three paths. */
  lemma BeginFrame(g: Get, size: nat, want: nat, rel: string)
    ensures var p := Placed(g, size, want, rel);
            var h := Begin(g, size, want, rel);
            && h.target == g.target && h.dest == p.dest && Around(p.disk, h.disk, h.dest)
            && (h.published == g.published || h.published == g.published + {h.dest})
            && (Running(h) && h.state == Recv ==> OwnPaths(h))
  {
    hide Placed, WithPart, KeptBytes, OpenPart, FinishEntry, Around;
    PlacedFrame(g, size, want, rel);
    var p := Placed(g, size, want, rel);
    WithPartFrame(p);
    var w := WithPart(p);
    OwnParts(p);
    var off := |KeptBytes(w)|;
    OpenFrame(w, off);
    var o := OpenPart(w, off);
    AroundSelf(p.disk, p.dest);
    var r := o.(got := off, out := o.out + ResumeLine(off) + "\n", state := Recv);
    FinishFrame(r);
    AroundThen(p.disk, o.disk, FinishEntry(r).disk, p.dest);
  }

  lemma OwnParts(g: Get)
    ensures OwnPaths(WithPart(g))
  {
    hide KeptBytes;
  }

  lemma AroundSelf(a: Disk, dest: string)
    ensures Around(a, a, dest)
  {}

  lemma AroundThen(a: Disk, b: Disk, c: Disk, dest: string)
    requires Around(a, b, dest) && Around(b, c, dest)
    ensures Around(a, c, dest)
  {}

  /** Every directory on the way to a file stored below the target is there, unless a file
      is in its place; no other directory is made. */
  lemma DirsMade(g: Get, size: nat, want: nat, rel: string)
    requires Base(g.target) in g.disk.dirs
    ensures var h := Begin(g, size, want, rel);
            && (forall i :: 1 <= i < |h.dest| && h.dest[i] == '/' && h.dest[..i] != "." ==>
                  h.dest[..i] in h.disk.dirs || h.dest[..i] in g.disk.files)
            && (forall q :: q in h.disk.dirs && q !in g.disk.dirs ==> |q| < |h.dest| && h.dest[..|q| + 1] == q + "/")
  {
    BeginFrame(g, size, want, rel);
    PlacedFrame(g, size, want, rel);
    var h := Begin(g, size, want, rel);
    hide S.Safe, Begin, PrefixDirs, Parent, Around;
    assert '/' in h.dest;
    OnTheWay(h.dest);
    assert h.disk.dirs == Placed(g, size, want, rel).disk.dirs by {
      AroundDirs(Placed(g, size, want, rel).disk, h.disk, h.dest);
    }
  }

  lemma AroundDirs(a: Disk, b: Disk, dest: string)
    requires Around(a, b, dest)
    ensures b.dirs == a.dirs
  {}

  lemma OnTheWay(dest: string)
    requires '/' in dest
    ensures forall i :: 1 <= i < |dest| && dest[i] == '/' && dest[..i] != "." ==> dest[..i] in PrefixDirs(Parent(dest))
    ensures forall q :: q in PrefixDirs(Parent(dest)) ==> |q| < |dest| && dest[..|q| + 1] == q + "/"
  {
    hide Parent, PrefixDirs;
    ParentIs(dest);
    var dir := Parent(dest);
    forall i | 1 <= i < |dest| && dest[i] == '/' && dest[..i] != "."
      ensures dest[..i] in PrefixDirs(dir)
    {
      PrefixIn(dir, dest, i);
    }
    forall q | q in PrefixDirs(dir)
      ensures |q| < |dest| && dest[..|q| + 1] == q + "/"
    {
      PrefixOnly(dir, dest, q);
    }
  }

  lemma PrefixIn(dir: string, dest: string, i: nat)
    requires |dir| < |dest| && dest[..|dir|] == dir && 1 <= i <= |dir|
    requires dest[i] == '/' && dest[..i] != "."
    ensures dest[..i] in PrefixDirs(dir)
  {
    assert dest[..|dir|][..i] == dest[..i];
    assert i < |dir| ==> dest[..|dir|][i] == dest[i];
  }

  lemma PrefixOnly(dir: string, dest: string, q: string)
    requires |dir| < |dest| && dest[..|dir|] == dir && dest[|dir|] == '/' && q in PrefixDirs(dir)
    ensures |q| < |dest| && dest[..|q| + 1] == q + "/"
  {
    var i :| 1 <= i <= |dir| && (i == |dir| || dir[i] == '/') && dir[..i] == q;
    assert dest[..|dir|][..i] == dest[..i];
    assert i < |dir| ==> dest[..|dir|][i] == dest[i];
    assert dest[..i + 1] == dest[..i] + [dest[i]];
  }

  /** The directory part ends at the last slash. */
  lemma {:induction false} ParentIs(p: string)
    requires '/' in p
    ensures |Parent(p)| < |p| && p[..|Parent(p)|] == Parent(p) && p[|Parent(p)|] == '/'
    ensures forall i :: |Parent(p)| < i < |p| ==> p[i] != '/'
    decreases |p|
  {
    if p[|p| - 1] != '/' {
      var f := S.Front(p);
      assert '/' in f by {
        var i :| 0 <= i < |p| && p[i] == '/';
        assert f[i] == '/';
      }
      ParentIs(f);
      assert forall i :: 0 <= i < |f| ==> f[i] == p[i];
      assert p[..|Parent(f)|] == f[..|Parent(f)|];
    }
  }

  // ---- whatever is received ----

  ghost predicate OnlyTouched(target: string, inDir: bool, a: Disk, b: Disk) {
    forall p :: !MayTouch(target, inDir, p) ==> (p in b.files <==> p in a.files) && (p in a.files ==> b.files[p] == a.files[p])
  }

  ghost predicate Confined(target: string, inDir: bool, disk: Disk, g: Get) {
    && g.target == target && (Base(target) in g.disk.dirs <==> inDir)
    && (Running(g) && g.state == Recv ==>
          MayStore(target, inDir, g.dest) && OwnPaths(g))
    && (forall p :: p in g.published ==> MayStore(target, inDir, p))
    && OnlyTouched(target, inDir, disk, g.disk)
  }

  lemma StepConfined(target: string, inDir: bool, disk: Disk, g: Get, c: char)
    requires Confined(target, inDir, disk, g)
    ensures Confined(target, inDir, disk, Step(g, c))
  {
    hide Begin, ParseHeader, Confined, FinishEntry, Receive;
    if Running(g) && g.state == Header {
      HeaderConfined(target, inDir, disk, g, c);
      if c == '\n' {
        var h := ParseHeader(g.hdr);
        if h.Offer? {
          BeginConfined(target, inDir, disk, g.(hdr := ""), h.size, h.crc, h.rel);
        }
      }
    } else if Running(g) && g.state == Recv {
      ReceiveConfined(target, inDir, disk, g, [c]);
      FinishConfined(target, inDir, disk, Receive(g, [c]));
    }
  }

  /** Collecting a header, or ending at one. */
  lemma HeaderConfined(target: string, inDir: bool, disk: Disk, g: Get, c: char)
    requires Confined(target, inDir, disk, g) && Running(g) && g.state == Header
    ensures Confined(target, inDir, disk, g.(hdr := ""))
    ensures !(c == '\n' && ParseHeader(g.hdr).Offer?) ==> Confined(target, inDir, disk, Step(g, c))
  {
    hide ParseHeader, MayStore, OnlyTouched;
  }

  lemma ReceiveConfined(target: string, inDir: bool, disk: Disk, g: Get, b: string)
    requires Confined(target, inDir, disk, g) && Running(g) && g.state == Recv
    ensures var h := Receive(g, b);
            Confined(target, inDir, disk, h) && Running(h) && h.state == Recv
  {
    hide MayStore;
    assert MayTouch(target, inDir, g.part);
  }

  lemma FinishConfined(target: string, inDir: bool, disk: Disk, g: Get)
    requires Confined(target, inDir, disk, g) && Running(g) && g.state == Recv
    ensures Confined(target, inDir, disk, FinishEntry(g))
  {
    hide MayStore, FinishEntry, OnlyTouched;
    FinishFrame(g);
    AroundTouched(target, inDir, disk, g.disk, FinishEntry(g).disk, g.dest);
  }

  /** The three files of an entry are among those that may be touched. */
  lemma AroundTouched(target: string, inDir: bool, disk: Disk, a: Disk, b: Disk, dest: string)
    requires OnlyTouched(target, inDir, disk, a) && Around(a, b, dest) && MayStore(target, inDir, dest)
    ensures OnlyTouched(target, inDir, disk, b)
  {
    hide MayStore;
    assert MayTouch(target, inDir, dest) && MayTouch(target, inDir, dest + ".part") && MayTouch(target, inDir, dest + ".part.meta");
  }

  lemma BeginConfined(target: string, inDir: bool, disk: Disk, g: Get, size: nat, want: nat, rel: string)
    requires Confined(target, inDir, disk, g)
    ensures Confined(target, inDir, disk, Begin(g, size, want, rel))
  {
    hide Begin, MayStore, Placed, OnlyTouched;
    BeginFrame(g, size, want, rel);
    PlacedFrame(g, size, want, rel);
    OfferStored(g, size, want, rel);
    DirsStay(g, size, want, rel);
    var p, h := Placed(g, size, want, rel), Begin(g, size, want, rel);
    SameFiles(target, inDir, disk, g.disk, p.disk);
    AroundTouched(target, inDir, disk, p.disk, h.disk, h.dest);
  }

  lemma SameFiles(target: string, inDir: bool, disk: Disk, a: Disk, b: Disk)
    requires OnlyTouched(target, inDir, disk, a) && b.files == a.files
    ensures OnlyTouched(target, inDir, disk, b)
  {}

  lemma DirsStay(g: Get, size: nat, want: nat, rel: string)
    ensures var p := Placed(g, size, want, rel);
            Base(g.target) in p.disk.dirs <==> Base(g.target) in g.disk.dirs
  {
    hide Destination, PrefixDirs, Parent;
  }

  lemma {:induction false} FeedConfined(target: string, inDir: bool, disk: Disk, g: Get, b: string)
    requires Confined(target, inDir, disk, g)
    ensures Confined(target, inDir, disk, FeedAll(g, b))
    decreases |b|
  {
    hide Step, Confined;
    if b != [] {
      StepConfined(target, inDir, disk, g, b[0]);
      FeedConfined(target, inDir, disk, Step(g, b[0]), b[1..]);
    }
  }

  /** Whatever the peer sends: every file published is below the target directory (or is
      the target), and no other file than these, with what is kept beside them, is made,
      changed or removed. */
  lemma PublishedInside(target: string, overwrite: bool, disk: Disk, b: string)
    ensures var g := FeedAll(Fresh(target, overwrite, disk), b);
            var inDir := Base(target) in disk.dirs;
            && (forall p :: p in g.published ==> MayStore(target, inDir, p))
            && OnlyTouched(target, inDir, disk, g.disk)
  {
    hide FeedAll, MayStore;
    FeedConfined(target, Base(target) in disk.dirs, disk, Fresh(target, overwrite, disk), b);
  }

  // ---- what a finished entry leaves ----

  /** A file was published, and neither a partial file nor its record is left beside it. */
  predicate Cleaned(g: Get, h: Get) {
    h.files != g.files ==>
      h.dest in h.disk.files && h.dest + ".part" !in h.disk.files && h.dest + ".part.meta" !in h.disk.files
  }

  lemma FinishCleans(g: Get)
    requires OwnPaths(g)
    ensures Cleaned(g, FinishEntry(g))
  {
    hide Number;
    assert |g.dest + ".part"| != |g.dest| && |g.dest + ".part.meta"| != |g.dest|;
  }

  lemma BeginCleans(g: Get, size: nat, want: nat, rel: string)
    ensures Cleaned(g, Begin(g, size, want, rel))
  {
    hide Placed, WithPart, KeptBytes, OpenPart, FinishEntry;
    PlacedFrame(g, size, want, rel);
    var p := Placed(g, size, want, rel);
    WithPartFrame(p);
    OwnParts(p);
    var w := WithPart(p);
    var off := |KeptBytes(w)|;
    OpenFrame(w, off);
    var o := OpenPart(w, off);
    FinishCleans(o.(got := off, out := o.out + ResumeLine(off) + "\n", state := Recv));
  }

  lemma StepCleans(g: Get, c: char)
    requires Running(g) && g.state == Recv ==> OwnPaths(g)
    ensures Cleaned(g, Step(g, c))
  {
    hide ParseHeader, Begin, FinishEntry, Cleaned;
    if Running(g) && g.state == Recv {
      FinishCleans(Receive(g, [c]));
      CleanedFrom(g, Receive(g, [c]), Step(g, c));
    } else if Running(g) && g.state == Header && c == '\n' && ParseHeader(g.hdr).Offer? {
      var h := ParseHeader(g.hdr);
      BeginCleans(g.(hdr := ""), h.size, h.crc, h.rel);
      CleanedFrom(g, g.(hdr := ""), Step(g, c));
    } else {
      NothingFinished(g, c);
    }
  }

  lemma CleanedFrom(g: Get, f: Get, h: Get)
    requires f.files == g.files && (h == f || Cleaned(f, h))
    ensures Cleaned(g, h)
  {}

  lemma NothingFinished(g: Get, c: char)
    requires !(Running(g) && g.state == Recv) && !(Running(g) && g.state == Header && c == '\n' && ParseHeader(g.hdr).Offer?)
    ensures Cleaned(g, Step(g, c))
  {
    hide ParseHeader, Begin, FinishEntry;
  }

  /** Whatever came before: the byte that completes a file leaves neither its partial file
      nor the record of that. */
  lemma NothingBeside(target: string, overwrite: bool, disk: Disk, b: string, c: char)
    ensures var g := FeedAll(Fresh(target, overwrite, disk), b);
            var h := Step(g, c);
            h.files != g.files ==>
              h.dest in h.disk.files && h.dest + ".part" !in h.disk.files && h.dest + ".part.meta" !in h.disk.files
  {
    hide FeedAll, MayStore, Step;
    var inDir := Base(target) in disk.dirs;
    FeedConfined(target, inDir, disk, Fresh(target, overwrite, disk), b);
    StepCleans(FeedAll(Fresh(target, overwrite, disk), b), c);
  }

  // ---- how it ends ----

  /** Closing decides: a get has either been told the end of the files, and then it has no
      error, or it has one, and that is "incomplete" exactly when nothing was wrong before;
      the disk stays as it is. */
  lemma ClosedDecides(target: string, overwrite: bool, disk: Disk, b: string)
    ensures var g := FeedAll(Fresh(target, overwrite, disk), b);
            var h := OnClosed(g);
            && (h.done <==> h.err == NoError) && (h.done <==> g.done) && h.disk == g.disk && h.files == g.files
            && (h.err == Incomplete <==> !g.done && g.err == NoError)
            && (Running(g) ==> !h.isOpen)
  {
    hide FeedAll;
    FeedDecides(Fresh(target, overwrite, disk), b);
  }

  predicate Undecided(g: Get) {
    g.err != Incomplete && (g.done ==> g.err == NoError)
  }

  lemma StepDecides(g: Get, c: char)
    requires Undecided(g)
    ensures Undecided(Step(g, c))
  {
    hide ParseHeader, Begin, FinishEntry;
    if Running(g) && g.state == Recv {
      FinishDecides(Receive(g, [c]));
    }
    if Running(g) && g.state == Header && c == '\n' {
      var h := ParseHeader(g.hdr);
      if h.Offer? {
        BeginDecides(g.(hdr := ""), h.size, h.crc, h.rel);
      }
    }
  }

  lemma BeginDecides(g: Get, size: nat, want: nat, rel: string)
    requires Running(g)
    ensures Undecided(Begin(g, size, want, rel))
  {
    hide Placed, WithPart, KeptBytes, OpenPart, FinishEntry;
    PlacedFrame(g, size, want, rel);
    var p := Placed(g, size, want, rel);
    WithPartFrame(p);
    OwnParts(p);
    var w := WithPart(p);
    var off := |KeptBytes(w)|;
    OpenFrame(w, off);
    var o := OpenPart(w, off);
    FinishDecides(o.(got := off, out := o.out + ResumeLine(off) + "\n", state := Recv));
  }

  lemma FinishDecides(g: Get)
    requires Running(g)
    ensures Undecided(FinishEntry(g))
  {
    hide Number;
  }

  lemma {:induction false} FeedDecides(g: Get, b: string)
    requires Undecided(g)
    ensures Undecided(FeedAll(g, b))
    decreases |b|
  {
    hide Step, Undecided;
    if b != [] {
      StepDecides(g, b[0]);
      FeedDecides(Step(g, b[0]), b[1..]);
    }
  }
}
