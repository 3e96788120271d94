/** One entry of the file protocol seen from both disks: what the receiver's handling of
    an offer, of file data and of the last byte does to its disk, given that the source
    does not change (src/peer/pipes.cpp:297-386). */
module TransferEntry {
  import opened Wrappers
  import opened BitFacts
  import opened FileLines
  import Crc32
  import SafePath
  import Text
  import S = ShareFile
  import G = GetFile

  /** What is being transferred: the sender's entries, the receiver's target, and whether
      that target is a directory. */
  datatype Job = Job(entries: seq<S.Entry>, target: string, inDir: bool)

  ghost predicate GoodEntry(e: S.Entry) {
    && e.file.Some? && |e.file.value| == e.size <= Text.MAX64
    && PlainPath(e.relpath)
    && |OfferLine(e.size, S.FileCrc(e), e.relpath)| <= MAX_HEADER
  }

  predicate Has(j: Job, k: nat) {
    k < |j.entries|
  }

  function Content(j: Job, k: nat): string
    requires Has(j, k)
  {
    if j.entries[k].file.Some? then j.entries[k].file.value else ""
  }

  function Dest(j: Job, k: nat): string
    requires Has(j, k)
  {
    G.Destination(j.target, j.inDir, j.entries[k].relpath)
  }

  function PartOf(dest: string): string {
    dest + ".part"
  }

  function MetaOf(dest: string): string {
    dest + ".part.meta"
  }

  function Paths(dest: string): set<string> {
    {dest, PartOf(dest), MetaOf(dest)}
  }

  /** The files of the job can be read and announced, and the destinations, partial
      files and records of different entries are different paths. */
  ghost predicate Good(j: Job) {
    && (forall k: nat :: Has(j, k) ==> GoodEntry(j.entries[k]))
    && (forall i: nat, k: nat :: Has(j, i) && Has(j, k) && i != k ==> Paths(Dest(j, i)) !! Paths(Dest(j, k)))
  }

  /** The partial file of entry k will be recognised, and can be appended to. (One that
      cannot be written is recorded too, whatever it holds: see ForeignRecorded.) */
  ghost predicate Matching(j: Job, d: G.Disk, k: nat)
    requires Has(j, k)
  {
    var e := j.entries[k];
    var dest := Dest(j, k);
    && PartOf(dest) in d.files && MetaOf(dest) in d.files && d.CanWrite(PartOf(dest))
    && MetaMatches(d.files[MetaOf(dest)], e.size, S.FileCrc(e), e.relpath)
  }

  /** The resume invariant: a partial file whose record matches the offer is a prefix of
      the source. */
  ghost predicate Resumable(j: Job, d: G.Disk) {
    && (j.inDir <==> G.TargetDir(j.target) in d.dirs)
    && (forall k: nat :: Has(j, k) && Matching(j, d, k) ==> d.files[PartOf(Dest(j, k))] <= Content(j, k))
  }

  /** The file stands at its destination, byte for byte. */
  predicate Delivered(j: Job, d: G.Disk, k: nat)
    requires Has(j, k)
  {
    Dest(j, k) in d.files && d.files[Dest(j, k)] == Content(j, k)
  }

  /** The file is where whoever asked for it looks: in the target directory under the path
      that was offered, if that is a proper one, or at the target itself. */
  predicate InPlace(j: Job, d: G.Disk, k: nat)
    requires Has(j, k)
  {
    var rel := j.entries[k].relpath;
    var path := if j.inDir then (if j.target == "" then "." else j.target) + "/" + rel else j.target;
    (j.inDir ==> SafePath.IsProper(rel)) ==> path in d.files && d.files[path] == Content(j, k)
  }

  lemma DeliveredInPlace(j: Job, d: G.Disk, k: nat)
    requires Has(j, k) && Delivered(j, d, k)
    ensures InPlace(j, d, k)
  {
    hide SafePath.Split, SafePath.Proper, SafePath.Safe;
    SafePath.SafeStaysInside(j.entries[k].relpath);
  }

  /** The directories handle_header makes for one destination. */
  function MadeFor(dest: string, inDir: bool): set<string> {
    if inDir then G.PrefixDirs(G.Parent(dest)) else {}
  }

  /** Only the three paths of one entry, and its directories, differ. */
  ghost predicate Touches(a: G.Disk, b: G.Disk, dest: string, inDir: bool) {
    && (forall p :: p !in Paths(dest) ==> (p in a.files <==> p in b.files))
    && (forall p :: p !in Paths(dest) && p in a.files ==> a.files[p] == b.files[p])
    && a.blocked == b.blocked && a.dirs <= b.dirs <= a.dirs + MadeFor(dest, inDir)
  }

  lemma TouchesTwice(a: G.Disk, b: G.Disk, c: G.Disk, dest: string, inDir: bool)
    requires Touches(a, b, dest, inDir) && Touches(b, c, dest, inDir)
    ensures Touches(a, c, dest, inDir)
  {}

  /** What touches one entry keeps the resume invariant of the others. */
  lemma OthersResumable(j: Job, a: G.Disk, b: G.Disk, k: nat)
    requires Good(j) && Has(j, k) && Resumable(j, a) && Touches(a, b, Dest(j, k), j.inDir)
    requires Matching(j, b, k) ==> b.files[PartOf(Dest(j, k))] <= Content(j, k)
    ensures Resumable(j, b)
  {
    hide Dest, Content, MetaMatches, GoodEntry, S.FileCrc;
    forall i: nat | Has(j, i) && Matching(j, b, i)
      ensures b.files[PartOf(Dest(j, i))] <= Content(j, i)
    {
      if i != k {
        assert PartOf(Dest(j, i)) in Paths(Dest(j, i)) && MetaOf(Dest(j, i)) in Paths(Dest(j, i));
        assert Matching(j, a, i);
      }
    }
  }

  lemma OthersDelivered(j: Job, a: G.Disk, b: G.Disk, k: nat, i: nat)
    requires Good(j) && Has(j, k) && Has(j, i) && Delivered(j, a, i) && Touches(a, b, Dest(j, k), j.inDir)
    requires i == k ==> Delivered(j, b, k)
    ensures Delivered(j, b, i)
  {
    hide Dest, Content;
    if i != k {
      assert Dest(j, i) in Paths(Dest(j, i));
    }
  }

  // ---- the receiver inside an entry ----

  /** The receiver is working on entry k: its fields are those of the offer. */
  ghost predicate Holds(j: Job, g: G.Get, k: nat)
    requires Has(j, k)
  {
    var e := j.entries[k];
    && g.target == j.target && g.hdr == ""
    && g.size == e.size && g.want == S.FileCrc(e) && g.rel == e.relpath
    && g.dest == Dest(j, k) && g.part == PartOf(g.dest) && g.meta == MetaOf(g.dest)
  }

  /** ... with the partial file open and holding the first `off` bytes of the source. */
  ghost predicate At(j: Job, g: G.Get, k: nat, off: nat)
    requires Has(j, k)
  {
    && Holds(j, g, k) && G.Running(g) && g.state == G.Recv && g.got == off <= |Content(j, k)|
    && g.isOpen && g.part in g.disk.files && g.disk.files[g.part] == Content(j, k)[..off]
    && g.crc == Crc32.Update(ZERO, Content(j, k)[..off])
    && (g.disk.CanWrite(g.meta) && Recognisable(g.rel) ==> Recorded(g.disk, g.meta, g.size, g.want, g.rel))
  }

  /** The record beside the partial file is one a later run will recognise. */
  predicate Recorded(d: G.Disk, meta: string, size: nat, want: nat, rel: string) {
    meta in d.files && MetaMatches(d.files[meta], size, want, rel)
  }

  predicate Recognisable(rel: string) {
    0 < |rel| <= META_PATH && !Text.IsSpace(rel[0])
  }

  /** What finishing, or refusing, entry k leaves of the receiver. */
  ghost predicate Closed(j: Job, g: G.Get, h: G.Get, k: nat)
    requires Has(j, k)
  {
    && h.target == j.target && h.overwrite == g.overwrite && h.hdr == ""
    && Resumable(j, h.disk) && Touches(g.disk, h.disk, Dest(j, k), j.inDir)
    && (h.err == G.NoError ==>
          && G.Running(h) && h.state == G.Header && h.files == g.files + 1
          && h.published == g.published + {Dest(j, k)} && Delivered(j, h.disk, k))
    && (h.err != G.NoError ==> Refused(h.err) && Unpublished(g, h, Dest(j, k)))
  }

  ghost predicate Unpublished(g: G.Get, h: G.Get, dest: string) {
    h.files == g.files && h.published == g.published && SameAt(g.disk, h.disk, dest)
  }

  predicate SameAt(a: G.Disk, b: G.Disk, p: string) {
    (p in a.files <==> p in b.files) && (p in a.files ==> a.files[p] == b.files[p])
  }

  /** The only ways an entry of an unchanged source can fail. */
  predicate Refused(e: G.Error) {
    e.AlreadyExists? || e.CannotWrite? || e.RenameFailed?
  }

  lemma EntryFacts(j: Job, k: nat)
    requires Good(j) && Has(j, k)
    ensures var e := j.entries[k];
            && e.size == |Content(j, k)| && S.FileCrc(e) == Crc32.Of(Content(j, k)) < 0x1_0000_0000
            && e.size <= Text.MAX64 && PlainPath(e.relpath)
  {
    hide Crc32.Of;
    var f := j.entries[k].file.value;
    assert GoodEntry(j.entries[k]);
    assert f[..Least(j.entries[k].size, |f|)] == f;
  }

  /** The last byte is in: the checksum agrees, and the entry is published unless the
      system refuses the rename. */
  lemma Finishes(j: Job, g: G.Get, k: nat)
    requires Good(j) && Has(j, k) && Resumable(j, g.disk) && At(j, g, k, |Content(j, k)|)
    ensures Closed(j, g, G.FinishEntry(g), k)
    ensures G.FinishEntry(g).out == g.out
    ensures G.FinishEntry(g).err == if g.disk.CanWrite(g.dest) then G.NoError else G.RenameFailed(g.dest)
  {
    hide Crc32.Update, MetaMatches, S.FileCrc, Number, Dest, GoodEntry;
    EntryFacts(j, k);
    var all := Content(j, k);
    assert all[..|all|] == all;
    assert Number(g.crc) == g.want;
    var h := G.FinishEntry(g);
    assert g.part != g.dest && g.meta != g.dest && |g.part| != |g.meta|;
    assert Touches(g.disk, h.disk, Dest(j, k), j.inDir);
    OthersResumable(j, g.disk, h.disk, k);
  }

  /** File data that belongs to the entry moves the receiver along it. */
  lemma Receives(j: Job, g: G.Get, k: nat, b: string)
    requires Good(j) && Has(j, k) && Resumable(j, g.disk) && At(j, g, k, g.got)
    requires g.got + |b| <= |Content(j, k)| && b == Content(j, k)[g.got..g.got + |b|]
    ensures At(j, G.Receive(g, b), k, g.got + |b|)
    ensures Resumable(j, G.Receive(g, b).disk) && Touches(g.disk, G.Receive(g, b).disk, Dest(j, k), j.inDir)
    ensures Unpublished(g, G.Receive(g, b), Dest(j, k)) && G.Receive(g, b).out == g.out
  {
    hide Crc32.Update, MetaMatches, S.FileCrc, Dest, GoodEntry;
    var all, off := Content(j, k), g.got;
    assert all[..off] + b == all[..off + |b|];
    Crc32.UpdateComposes(ZERO, all[..off], b);
    OthersResumable(j, g.disk, G.Receive(g, b).disk, k);
  }

  // ---- the receiver at an offer ----

  lemma PlacedFacts(j: Job, g: G.Get, k: nat)
    requires Good(j) && Has(j, k) && Resumable(j, g.disk) && g.target == j.target
    ensures var e := j.entries[k];
            var p := G.Placed(g, e.size, S.FileCrc(e), e.relpath);
            && p == g.(size := e.size, want := S.FileCrc(e), rel := e.relpath, dest := Dest(j, k), disk := p.disk)
            && Resumable(j, p.disk) && Touches(g.disk, p.disk, Dest(j, k), j.inDir)
            && p.disk.files == g.disk.files
  {
    hide MetaMatches, S.FileCrc, GoodEntry, G.Destination, G.PrefixDirs, G.Parent;
    var e := j.entries[k];
    var p := G.Placed(g, e.size, S.FileCrc(e), e.relpath);
    assert Matching(j, p.disk, k) ==> Matching(j, g.disk, k);
    OthersResumable(j, g.disk, p.disk, k);
  }

  /** Steps 2 and 3 of handle_header: the kept bytes are a prefix of the source, and the
      partial file is opened behind them. */
  lemma PartOpened(j: Job, p: G.Get, k: nat)
    requires Good(j) && Has(j, k) && Resumable(j, p.disk) && G.Running(p) && p.hdr == ""
    requires Holds(j, p.(part := PartOf(p.dest), meta := MetaOf(p.dest)), k)
    ensures var w := G.WithPart(p);
            var off := |G.KeptBytes(w)|;
            var o := G.OpenPart(w, off);
            && o == p.(part := w.part, meta := w.meta, got := 0, crc := o.crc, disk := o.disk, isOpen := o.isOpen)
            && o.isOpen == p.disk.CanWrite(PartOf(p.dest))
            && Resumable(j, o.disk) && Touches(p.disk, o.disk, Dest(j, k), j.inDir)
            && o.disk.dirs == p.disk.dirs && o.disk.blocked == p.disk.blocked && SameAt(p.disk, o.disk, p.dest)
            && (o.isOpen ==> off <= |Content(j, k)| && At(j, o.(state := G.Recv, got := off), k, off))
  {
    hide Crc32.Update, MetaMatches, MetaText, S.FileCrc, Dest, Content, GoodEntry, Recorded, Recognisable, G.OpenPart, G.KeptBytes;
    EntryFacts(j, k);
    var w := G.WithPart(p);
    var kept := G.KeptBytes(w);
    var o := G.OpenPart(w, |kept|);
    assert w.part == PartOf(p.dest) && w.meta == MetaOf(p.dest) && |w.part| != |w.meta| && w.part != w.dest && w.meta != w.dest;
    G.WithPartReady(p);
    OpenFacts(w);
    if o.isOpen {
      KeptPrefix(j, w, k);
      RecordKept(w);
    }
    Rematched(j, o, k, kept);
    OthersResumable(j, p.disk, o.disk, k);
  }

  lemma Rematched(j: Job, o: G.Get, k: nat, kept: string)
    requires Has(j, k) && o.dest == Dest(j, k) && o.part == PartOf(o.dest)
    requires o.isOpen == o.disk.CanWrite(o.part)
    requires o.isOpen ==> o.part in o.disk.files && o.disk.files[o.part] == kept && kept <= Content(j, k)
    ensures Matching(j, o.disk, k) ==> o.disk.files[PartOf(Dest(j, k))] <= Content(j, k)
  {
    hide MetaMatches, S.FileCrc, Dest, Content;
  }

  /** The kept bytes are a prefix of the source. */
  lemma KeptPrefix(j: Job, w: G.Get, k: nat)
    requires Good(j) && Has(j, k) && Resumable(j, w.disk) && Holds(j, w, k) && w.disk.CanWrite(w.part)
    ensures G.KeptBytes(w) <= Content(j, k)
    ensures G.KeptBytes(w) == Content(j, k)[..|G.KeptBytes(w)|]
  {
    hide MetaMatches, S.FileCrc, Dest, Content, GoodEntry;
    assert G.KeepsPart(w) ==> Matching(j, w.disk, k);
  }

  lemma OpenFacts(w: G.Get)
    requires |w.part| != |w.meta|
    ensures var kept := G.KeptBytes(w);
            var o := G.OpenPart(w, |kept|);
            && o == w.(disk := o.disk, isOpen := w.disk.CanWrite(w.part))
            && o.disk.dirs == w.disk.dirs && o.disk.blocked == w.disk.blocked
            && (forall p :: p != w.part && p != w.meta ==> (p in w.disk.files <==> p in o.disk.files))
            && (forall p :: p != w.part && p != w.meta && p in w.disk.files ==> w.disk.files[p] == o.disk.files[p])
            && (o.isOpen ==> w.part in o.disk.files && o.disk.files[w.part] == kept)
  {
    hide MetaMatches, MetaText;
  }

  lemma RecordKept(w: G.Get)
    requires |w.part| != |w.meta| && w.size <= Text.MAX64 && w.want < 0x1_0000_0000 && PlainPath(w.rel)
    ensures var o := G.OpenPart(w, |G.KeptBytes(w)|);
            w.disk.CanWrite(w.meta) && Recognisable(w.rel) ==> Recorded(o.disk, o.meta, o.size, o.want, o.rel)
  {
    hide MetaMatches, MetaText;
    MetaRecognised(w.size, w.want, w.rel);
  }

  /** What one offer does: either entry k is refused, or a RESUME for the bytes already
      here is sent and the entry goes on behind them (or is finished at once). */
  ghost predicate Answered(j: Job, g: G.Get, h: G.Get, k: nat, off: nat)
    requires Has(j, k)
  {
    && off <= |Content(j, k)| && h.out == g.out + ResumeLine(off) + "\n"
    && (off < |Content(j, k)| ==>
          && At(j, h, k, off) && Unpublished(g, h, Dest(j, k)) && h.overwrite == g.overwrite
          && Resumable(j, h.disk) && Touches(g.disk, h.disk, Dest(j, k), j.inDir))
    && (off == |Content(j, k)| ==> Closed(j, g, h, k))
  }

  function Offered(j: Job, g: G.Get, k: nat): G.Get
    requires Has(j, k)
  {
    var e := j.entries[k];
    G.Begin(g, e.size, S.FileCrc(e), e.relpath)
  }

  /** The number of bytes of entry k the receiver would keep. */
  function KeptOf(j: Job, g: G.Get, k: nat): nat
    requires Has(j, k)
  {
    |G.KeptBytes(G.WithPart(PlacedAt(j, g, k)))|
  }

  /** The receiver as it stands once the directories for entry k are made. */
  function PlacedAt(j: Job, g: G.Get, k: nat): G.Get
    requires Has(j, k)
  {
    var e := j.entries[k];
    G.Placed(g, e.size, S.FileCrc(e), e.relpath)
  }

  /** When entry k is accepted: nothing is in the way, and the system lets its files be
      written. */
  predicate Accepts(j: Job, g: G.Get, k: nat)
    requires Has(j, k)
  {
    var d := PlacedAt(j, g, k).disk;
    && (g.overwrite || !d.Exists(Dest(j, k)))
    && d.CanWrite(PartOf(Dest(j, k)))
    && (KeptOf(j, g, k) == |Content(j, k)| ==> d.CanWrite(Dest(j, k)))
  }

  lemma ClosedAfter(j: Job, g: G.Get, o: G.Get, h: G.Get, k: nat)
    requires Has(j, k) && Unpublished(g, o, Dest(j, k)) && o.overwrite == g.overwrite
    requires Touches(g.disk, o.disk, Dest(j, k), j.inDir) && Closed(j, o, h, k)
    ensures Closed(j, g, h, k)
  {
    hide Dest, Resumable, Delivered;
    TouchesTwice(g.disk, o.disk, h.disk, Dest(j, k), j.inDir);
  }

  lemma Begins(j: Job, g: G.Get, k: nat)
    requires Good(j) && Has(j, k) && Resumable(j, g.disk) && g.target == j.target
    requires G.Running(g) && g.state == G.Header && g.hdr == ""
    ensures var h := Offered(j, g, k);
            || (h.err != G.NoError && h.out == g.out && Closed(j, g, h, k))
            || Answered(j, g, h, k, KeptOf(j, g, k))
    ensures Offered(j, g, k).err == G.NoError <==> Accepts(j, g, k)
  {
    hide Crc32.Update, MetaMatches, MetaText, S.FileCrc, Dest, Content, GoodEntry, ResumeLine,
         G.Placed, G.WithPart, G.KeptBytes, G.OpenPart, G.FinishEntry, Resumable, Touches, Good, Delivered, Recognisable, Recorded;
    var e := j.entries[k];
    EntryFacts(j, k);
    PlacedFacts(j, g, k);
    var p := G.Placed(g, e.size, S.FileCrc(e), e.relpath);
    PartOpened(j, p, k);
    var w := G.WithPart(p);
    var off := |G.KeptBytes(w)|;
    var o := G.OpenPart(w, off);
    TouchesTwice(g.disk, p.disk, o.disk, Dest(j, k), j.inDir);
    if (p.overwrite || !p.disk.Exists(p.dest)) && o.isOpen {
      var r := o.(got := off, out := g.out + ResumeLine(off) + "\n", state := G.Recv);
      assert Offered(j, g, k) == if off == r.size then G.FinishEntry(r) else r;
      if off == |Content(j, k)| {
        Finishes(j, r, k);
        ClosedAfter(j, g, r, G.FinishEntry(r), k);
      }
    }
  }

  // ---- running again ----

  /** A record is only ever recognised for a path that fits its field and does not begin
      with white space. */
  lemma MatchFits(content: string, size: nat, crc: nat, rel: string)
    requires MetaMatches(content, size, crc, rel)
    ensures Recognisable(rel)
  {
    var c := Text.CStr(UntilNewline(content, META_LINE));
    hide Text.ParseInt, Text.CStr, UntilNewline;
    var q := Text.ParseInt(c, Text.SkipSpace(c, Text.ParseInt(c, 0, 10).end), 16);
    SkipStops(c, q.end);
  }

  /** A get that was cut after `off` bytes of entry k and meets the same offer again
      carries on at exactly that byte, provided the path fits the record; otherwise it
      starts over. */
  lemma ResumesWhereCut(j: Job, g: G.Get, k: nat, off: nat, h: G.Get)
    requires Good(j) && Has(j, k) && At(j, g, k, off) && g.disk.CanWrite(g.meta)
    requires Resumable(j, h.disk) && h.target == j.target
    requires SameAt(g.disk, h.disk, g.part) && SameAt(g.disk, h.disk, g.meta)
    ensures KeptOf(j, h, k) == if Recognisable(j.entries[k].relpath) then off else 0
  {
    hide MetaMatches, S.FileCrc, Dest, Content, Good, Resumable, Touches, Crc32.Update, Recognisable;
    EntryFacts(j, k);
    PlacedFacts(j, h, k);
    var w := G.WithPart(PlacedAt(j, h, k));
    assert w.part == g.part && w.meta == g.meta;
    if Recognisable(g.rel) {
      assert G.KeepsPart(w);
    } else if G.KeepsPart(w) {
      MatchFits(w.disk.files[w.meta], w.size, w.want, w.rel);
    }
  }

  /** A partial file of somebody else's, which the system does not let us write, is refused
      but gets the record of our offer beside it: it is recognised later, whatever it
      holds, and refused again each time. */
  lemma ForeignRecorded(j: Job, g: G.Get, k: nat)
    requires Good(j) && Has(j, k) && Resumable(j, g.disk) && g.target == j.target
    requires G.Running(g) && g.state == G.Header && g.hdr == "" && Recognisable(j.entries[k].relpath)
    requires var d := PlacedAt(j, g, k).disk;
             && (g.overwrite || !d.Exists(Dest(j, k))) && KeptOf(j, g, k) == 0
             && PartOf(Dest(j, k)) in d.files && !d.CanWrite(PartOf(Dest(j, k))) && d.CanWrite(MetaOf(Dest(j, k)))
    ensures var h := Offered(j, g, k);
            var e := j.entries[k];
            && h.err == G.CannotWrite(PartOf(Dest(j, k))) && SameAt(g.disk, h.disk, PartOf(Dest(j, k)))
            && Recorded(h.disk, MetaOf(Dest(j, k)), e.size, S.FileCrc(e), e.relpath)
            && !h.disk.CanWrite(PartOf(Dest(j, k)))
  {
    hide Crc32.Update, MetaMatches, MetaText, S.FileCrc, Dest, Content, GoodEntry, ResumeLine, G.Placed, G.KeptBytes,
         Good, Resumable, Touches;
    var e := j.entries[k];
    EntryFacts(j, k);
    PlacedFacts(j, g, k);
    var p := G.Placed(g, e.size, S.FileCrc(e), e.relpath);
    var w := G.WithPart(p);
    assert |w.part| != |w.meta|;
    MetaRecognised(w.size, w.want, w.rel);
  }
}
