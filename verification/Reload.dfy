/** Daemon::reload (src/peer/daemon.cpp:963-1012): the running sessions follow the peer
    files. A peer is known by its uid, so a renamed file renames its session in place. */
module Reload {
  import opened Wrappers

  /** A peer file; `fields` stands for everything else in it. */
  datatype Record = Record(uid: nat, name: string, fields: nat)

  /** A running session. `self` is the identity of the session object, which all its
      registrations and instances hang on. */
  datatype Session = Session(self: nat, name: string, rec: Record)

  type Sessions = map<string, Session>

  predicate DistinctUids(s: Sessions) {
    forall a, b :: a in s && b in s && s[a].rec.uid == s[b].rec.uid ==> a == b
  }

  predicate DistinctObjects(s: Sessions) {
    forall a, b :: a in s && b in s && s[a].self == s[b].self ==> a == b
  }

  /** Every session goes by the name it is kept under, and no object is to come again.
      (Two of them can be of one peer: see SessionFor.) */
  predicate Kept(s: Sessions, next: nat) {
    (forall n :: n in s ==> s[n].name == n && s[n].self < next) && DistinctObjects(s)
  }

  /** The peer files by uid (of two files with one uid the later counts). */
  function OnDisk(loaded: seq<Record>): (d: map<nat, Record>)
    ensures forall u :: u in d ==> d[u].uid == u && d[u] in loaded
    ensures forall r :: r in loaded ==> r.uid in d
  {
    if loaded == [] then map[]
    else OnDisk(loaded[..|loaded| - 1])[loaded[|loaded| - 1].uid := loaded[|loaded| - 1]]
  }

  /** No two peers on disk have one name. */
  predicate DistinctNames(d: map<nat, Record>) {
    forall u, v :: u in d && v in d && d[u].name == d[v].name ==> u == v
  }

  predicate WellKeyed(d: map<nat, Record>) {
    forall u :: u in d ==> d[u].uid == u
  }

  /** The sessions s have become t: exactly the peers on disk, name for name; a peer that
      was there goes on with a session object of its own, the one under its file's name if
      there was one, and the others get new ones; `dropped` are the objects of the peers
      that are gone. */
  ghost predicate Reloaded(s: Sessions, next: nat, d: map<nat, Record>, t: Sessions, dropped: set<nat>) {
    && (forall n :: n in t ==> t[n].name == n && t[n].rec.uid in d && d[t[n].rec.uid] == t[n].rec && t[n].rec.name == n)
    && (forall u :: u in d ==> d[u].name in t && t[d[u].name].rec == d[u])
    && (forall n :: n in s && s[n].rec.uid in d ==> GoesOn(s, n, d[s[n].rec.uid].name, t))
    && (forall n :: n in t && (forall m :: m in s ==> s[m].rec.uid != t[n].rec.uid) ==> t[n].self >= next)
    && (forall o :: o in dropped <==> exists n :: n in s && s[n].self == o && s[n].rec.uid !in d)
  }

  /** Under the name m, t goes on with a session of the peer that s[n] is of. */
  ghost predicate GoesOn(s: Sessions, n: string, m: string, t: Sessions)
    requires n in s
  {
    && m in t && (exists k :: k in s && s[k].rec.uid == s[n].rec.uid && s[k].self == t[m].self)
    && (m in s && s[m].rec.uid == s[n].rec.uid ==> t[m].self == s[m].self)
  }

  /** The name a session's file has now. */
  function NameOnDisk(d: map<nat, Record>, s: Session): string {
    if s.rec.uid in d then d[s.rec.uid].name else ""
  }

  function Remaining(s: Sessions, d: map<nat, Record>): Sessions {
    map n | n in s && s[n].rec.uid in d :: s[n]
  }

  /** t holds a session of s under the file's name of each, the one that has that name
      already if there is one, and nothing else. */
  ghost predicate RenamedTo(s: Sessions, t: Sessions, d: map<nat, Record>) {
    && (forall n :: n in s ==> NameOnDisk(d, s[n]) in t)
    && (forall n :: n in s && NameOnDisk(d, s[n]) == n ==> t[n] == s[n])
    && (forall m :: m in t ==> exists n :: n in s && NameOnDisk(d, s[n]) == m && t[m] == s[n].(name := m))
  }

  /** Nothing stands in the way of the i-th session to be renamed. */
  ghost predicate WayFree(s: Sessions, d: map<nat, Record>, moved: seq<string>, i: nat)
    requires i < |moved| && forall n :: n in moved ==> n in s
  {
    var m := NameOnDisk(d, s[moved[i]]);
    && !(m in s && m !in moved)
    && forall j :: 0 <= j < i ==> NameOnDisk(d, s[moved[j]]) != m
  }

  predicate AllNamed(s: Sessions, d: map<nat, Record>) {
    forall n :: n in s ==> s[n].rec.uid in d && NameOnDisk(d, s[n]) == n
  }

  /** s, after the peers on disk other than `uids` have been gone through, is t. */
  ghost predicate Following(s: Sessions, next: nat, d: map<nat, Record>, uids: set<nat>, t: Sessions) {
    && (forall n :: n in s ==> n in t && t[n].self == s[n].self)
    && (forall n :: n in t && n !in s ==> t[n].self >= next)
    && (forall n :: n in t ==> t[n].rec.uid in d && (t[n].rec.uid in uids || t[n].rec == d[t[n].rec.uid]))
    && (forall u :: u in d ==> u in uids || d[u].name in t)
  }

  class Peers {
    var sessions: Sessions
    var next: nat
    /** Session objects that drop_session has ended. */
    var dropped: set<nat>

    method LoadAll(loaded: seq<Record>) returns (onDisk: map<nat, Record>)
      ensures onDisk == OnDisk(loaded)
    {
      onDisk := map[];
      var i := 0;
      while i < |loaded|
        invariant 0 <= i <= |loaded|
        invariant onDisk == OnDisk(loaded[..i])
      {
        onDisk := onDisk[loaded[i].uid := loaded[i]];
        i := i + 1;
        assert loaded[..i][..i - 1] == loaded[..i - 1];
      }
      assert loaded[..i] == loaded;
    }

    /** Which sessions have lost their file, and whose file has another name. */
    method Compare(d: map<nat, Record>) returns (gone: seq<string>, moved: seq<string>)
      ensures forall n :: n in gone <==> n in sessions && sessions[n].rec.uid !in d
      ensures forall n :: n in moved <==> n in sessions && sessions[n].rec.uid in d && d[sessions[n].rec.uid].name != n
      ensures forall i, j :: 0 <= i < j < |moved| ==> moved[i] != moved[j]
    {
      gone, moved := [], [];
      var names := sessions.Keys;
      while names != {}
        invariant names <= sessions.Keys
        invariant forall n :: n in gone <==> n in sessions && n !in names && sessions[n].rec.uid !in d
        invariant forall n :: n in moved <==>
                    n in sessions && n !in names && sessions[n].rec.uid in d && d[sessions[n].rec.uid].name != n
        invariant forall i, j :: 0 <= i < j < |moved| ==> moved[i] != moved[j]
        decreases |names|
      {
        var n :| n in names;
        names := names - {n};
        var uid := sessions[n].rec.uid;
        if uid !in d {
          gone := gone + [n];
        } else if d[uid].name != n {
          moved := moved + [n];
        }
      }
    }

    method DropGone(gone: seq<string>)
      requires forall n :: n in gone ==> n in sessions
      modifies this`sessions, this`dropped
      ensures forall n :: n in sessions <==> n in old(sessions) && n !in gone
      ensures forall n :: n in sessions ==> sessions[n] == old(sessions)[n]
      ensures forall o :: o in dropped <==> o in old(dropped) || exists n :: n in gone && old(sessions)[n].self == o
    {
      var i := 0;
      ghost var s0, d0 := sessions, dropped;
      while i < |gone|
        invariant 0 <= i <= |gone|
        invariant forall n :: n in sessions <==> n in s0 && n !in gone[..i]
        invariant forall n :: n in sessions ==> sessions[n] == s0[n]
        invariant forall o :: o in dropped <==> o in d0 || exists n :: n in gone[..i] && s0[n].self == o
      {
        assert gone[..i + 1] == gone[..i] + [gone[i]];
        assert gone[i] in gone[..i + 1];
        if gone[i] in sessions {
          dropped := dropped + {sessions[gone[i]].self};
          sessions := sessions - {gone[i]};
        }
        i := i + 1;
      }
      assert gone[..i] == gone;
    }

    /** Take every renamed session out before putting any back. */
    method Extract(moved: seq<string>) returns (nodes: seq<Session>)
      requires forall n :: n in moved ==> n in sessions
      requires forall i, j :: 0 <= i < j < |moved| ==> moved[i] != moved[j]
      modifies this`sessions
      ensures |nodes| == |moved| && forall i :: 0 <= i < |moved| ==> nodes[i] == old(sessions)[moved[i]]
      ensures forall n :: n in sessions <==> n in old(sessions) && n !in moved
      ensures forall n :: n in sessions ==> sessions[n] == old(sessions)[n]
    {
      nodes := [];
      ghost var s0 := sessions;
      var i := 0;
      while i < |moved|
        invariant 0 <= i == |nodes| <= |moved|
        invariant forall k :: 0 <= k < i ==> nodes[k] == s0[moved[k]]
        invariant forall n :: n in sessions <==> n in s0 && n !in moved[..i]
        invariant forall n :: n in sessions ==> sessions[n] == s0[n]
      {
        assert moved[..i + 1] == moved[..i] + [moved[i]];
        nodes := nodes + [sessions[moved[i]]];
        sessions := sessions - {moved[i]};
        i := i + 1;
      }
      assert moved[..i] == moved;
    }

    /** Put the extracted sessions back under their new names. The first to come has the
        name; a session whose name is taken is lost. */
    method Insert(nodes: seq<Session>, d: map<nat, Record>)
      requires forall i :: 0 <= i < |nodes| ==> nodes[i].rec.uid in d
      modifies this`sessions
      ensures Inserted(old(sessions), nodes, d, sessions)
    {
      ghost var s0 := sessions;
      var i := 0;
      InsertedNone(s0, d);
      assert nodes[..0] == [];
      hide Inserted;
      while i < |nodes|
        invariant 0 <= i <= |nodes|
        invariant Inserted(s0, nodes[..i], d, sessions)
      {
        var n := d[nodes[i].rec.uid].name;
        InsertedMore(s0, nodes[..i], nodes[i], d, sessions);
        assert nodes[..i] + [nodes[i]] == nodes[..i + 1];
        if n !in sessions {
          sessions := sessions[n := nodes[i].(name := n)];
        }
        i := i + 1;
      }
      assert nodes[..i] == nodes;
    }

    /** session_for: a session is started for a peer that has none under this name; `file` is
        the peer file of the name. */
    method SessionFor(peer: string, file: Option<Record>) returns (found: bool)
      requires Kept(sessions, next) && (file.Some? ==> file.value.name == peer)
      modifies this`sessions, this`next
      ensures Kept(sessions, next) && (found <==> peer in sessions)
      ensures found <==> peer in old(sessions) || file.Some?
      ensures forall n :: n in old(sessions) ==> n in sessions && sessions[n] == old(sessions)[n]
      ensures forall n :: n in sessions && n !in old(sessions) ==> n == peer && sessions[n] == Session(old(next), peer, file.value)
    {
      found := peer in sessions || file.Some?;
      if peer !in sessions && file.Some? {
        Start(file.value);
      }
    }

    /** Does a session have this uid? If so it picks up the record. */
    method PickUp(rec: Record) returns (have: bool)
      modifies this`sessions
      ensures have <==> exists n :: n in old(sessions) && old(sessions)[n].rec.uid == rec.uid
      ensures sessions.Keys == old(sessions).Keys
      ensures forall n :: n in sessions ==>
                sessions[n] == if old(sessions)[n].rec.uid == rec.uid then old(sessions)[n].(rec := rec) else old(sessions)[n]
    {
      have := false;
      ghost var s0 := sessions;
      var names := sessions.Keys;
      while names != {}
        invariant names <= s0.Keys && sessions.Keys == s0.Keys
        invariant have <==> exists n :: n in s0 && n !in names && s0[n].rec.uid == rec.uid
        invariant forall n :: n in s0 ==>
                    sessions[n] == if n !in names && s0[n].rec.uid == rec.uid then s0[n].(rec := rec) else s0[n]
        decreases |names|
      {
        var n :| n in names;
        names := names - {n};
        if sessions[n].rec.uid == rec.uid {
          sessions := sessions[n := sessions[n].(rec := rec)];
          have := true;
        }
      }
    }

    /** start_session, succeeding. */
    method Start(rec: Record)
      modifies this`sessions, this`next
      ensures sessions == old(sessions)[rec.name := Session(old(next), rec.name, rec)] && next == old(next) + 1
    {
      sessions := sessions[rec.name := Session(next, rec.name, rec)];
      next := next + 1;
    }

    /** One turn of reload's last loop. */
    method FollowOne(d: map<nat, Record>, uid: nat) returns (started: bool)
      requires WellKeyed(d) && DistinctNames(d) && Kept(sessions, next) && AllNamed(sessions, d) && uid in d
      modifies this`sessions, this`next
      ensures started <==> d[uid].name !in old(sessions)
      ensures started ==> sessions == old(sessions)[d[uid].name := Session(old(next), d[uid].name, d[uid])] && next == old(next) + 1
      ensures !started ==>
                next == old(next) && d[uid].name in old(sessions)
                && sessions == old(sessions)[d[uid].name := old(sessions)[d[uid].name].(rec := d[uid])]
    {
      var rec := d[uid];
      OnlyItsName(sessions, d, uid);
      var have := PickUp(rec);
      if !have {
        assert sessions == old(sessions);
        Start(rec);
      }
      started := !have;
    }

    /** The last loop of reload: records are picked up, new peers get a session. */
    method Follow(d: map<nat, Record>) returns (added: nat)
      requires WellKeyed(d) && DistinctNames(d) && Kept(sessions, next) && AllNamed(sessions, d)
      modifies this`sessions, this`next
      ensures Kept(sessions, next) && AllNamed(sessions, d) && next == old(next) + added
      ensures Following(old(sessions), old(next), d, {}, sessions)
    {
      hide Kept, AllNamed, Following;
      ghost var s0, next0 := sessions, next;
      added := 0;
      var uids := d.Keys;
      FollowStarts(s0, next0, d);
      while uids != {}
        invariant uids <= d.Keys
        invariant Kept(sessions, next) && AllNamed(sessions, d) && next == next0 + added
        invariant Following(s0, next0, d, uids, sessions)
        decreases |uids|
      {
        var uid :| uid in uids;
        ghost var s, n := sessions, next;
        var started := FollowOne(d, uid);
        FollowSteps(s0, next0, d, uids, s, n, uid, sessions, next);
        uids := uids - {uid};
        if started {
          added := added + 1;
        }
      }
    }

    method DoReload(loaded: seq<Record>) returns (added: nat, removed: nat, renamed: nat)
      requires Kept(sessions, next) && DistinctNames(OnDisk(loaded))
      modifies this
      ensures Kept(sessions, next) && next == old(next) + added
      ensures dropped == old(dropped) + Lost(old(sessions), OnDisk(loaded))
      ensures Reloaded(old(sessions), old(next), OnDisk(loaded), sessions, Lost(old(sessions), OnDisk(loaded)))
    {
      hide Kept, DistinctNames, Following, Reloaded, RenamedTo, AllNamed, Lost, Remaining, WellKeyed;
      ghost var s0, next0 := sessions, next;
      var d := LoadAll(loaded);
      assert WellKeyed(d) by { DiskKeyed(loaded); }
      var moved;
      moved, removed := Purge(d);
      RemainingKept(s0, next0, d);
      Rename(d, moved);
      renamed := |moved|;
      added := Follow(d);
      FollowedReloads(s0, Remaining(s0, d), next0, d, sessions, next);
    }

    /** Drop the sessions whose files are gone; say which others are to be renamed. */
    method Purge(d: map<nat, Record>) returns (moved: seq<string>, removed: nat)
      modifies this`sessions, this`dropped
      ensures sessions == Remaining(old(sessions), d) && dropped == old(dropped) + Lost(old(sessions), d)
      ensures forall n :: n in sessions ==> sessions[n].rec.uid in d
      ensures forall n :: n in moved <==> n in sessions && NameOnDisk(d, sessions[n]) != n
      ensures forall i, j :: 0 <= i < j < |moved| ==> moved[i] != moved[j]
    {
      var gone;
      gone, moved := Compare(d);
      DropGone(gone);
      removed := |gone|;
    }

    /** Extract and re-insert. */
    method Rename(d: map<nat, Record>, moved: seq<string>)
      requires Kept(sessions, next) && DistinctNames(d) && forall n :: n in sessions ==> sessions[n].rec.uid in d
      requires forall n :: n in moved <==> n in sessions && NameOnDisk(d, sessions[n]) != n
      requires forall i, j :: 0 <= i < j < |moved| ==> moved[i] != moved[j]
      modifies this`sessions
      ensures RenamedTo(old(sessions), sessions, d) && Kept(sessions, next) && AllNamed(sessions, d)
      ensures forall i :: 0 <= i < |moved| ==>
                (Holds(sessions, old(sessions)[moved[i]]) <==> WayFree(old(sessions), d, moved, i))
    {
      hide Inserted, RenamedTo, WayFree, Kept, AllNamed, Holds;
      ghost var s1 := sessions;
      KeptNames(s1, next);
      var nodes := Extract(moved);
      ghost var s2 := sessions;
      Insert(nodes, d);
      Renamed(s1, s2, sessions, d, moved, nodes);
      LostOrNot(s1, s2, sessions, d, moved, nodes, next);
      RenamedKept(s1, sessions, d, next);
    }
  }

  function Lost(s: Sessions, d: map<nat, Record>): set<nat> {
    set n | n in s && s[n].rec.uid !in d :: s[n].self
  }

  lemma DiskKeyed(loaded: seq<Record>)
    ensures WellKeyed(OnDisk(loaded))
  {}

  lemma RemainingKept(s: Sessions, next: nat, d: map<nat, Record>)
    requires Kept(s, next)
    ensures Kept(Remaining(s, d), next)
  {}

  /** Is the session object there, under whatever name? */
  ghost predicate Holds(t: Sessions, e: Session) {
    exists m :: m in t && t[m].self == e.self
  }

  /** What re-inserting does: a name goes to the first of the sessions that want it, unless
      it was taken before. */
  ghost predicate Inserted(s: Sessions, nodes: seq<Session>, d: map<nat, Record>, t: Sessions) {
    && (forall n :: n in s ==> n in t && t[n] == s[n])
    && (forall i :: 0 <= i < |nodes| ==> NameOnDisk(d, nodes[i]) in t)
    && (forall n :: n in t && n !in s ==> exists i :: FirstFor(nodes, d, n, i) && t[n] == nodes[i].(name := n))
  }

  predicate FirstFor(nodes: seq<Session>, d: map<nat, Record>, n: string, i: int) {
    0 <= i < |nodes| && NameOnDisk(d, nodes[i]) == n && forall j :: 0 <= j < i ==> NameOnDisk(d, nodes[j]) != n
  }

  lemma InsertedNone(s: Sessions, d: map<nat, Record>)
    ensures Inserted(s, [], d, s)
  {}

  lemma InsertedMore(s: Sessions, nodes: seq<Session>, e: Session, d: map<nat, Record>, t: Sessions)
    requires Inserted(s, nodes, d, t)
    ensures var n := NameOnDisk(d, e);
            Inserted(s, nodes + [e], d, if n in t then t else t[n := e.(name := n)])
  {
    hide NameOnDisk;
    var m := NameOnDisk(d, e);
    var more := nodes + [e];
    var u := if m in t then t else t[m := e.(name := m)];
    forall n | n in u && n !in s
      ensures exists i :: FirstFor(more, d, n, i) && u[n] == more[i].(name := n)
    {
      if n in t {
        var i :| FirstFor(nodes, d, n, i) && t[n] == nodes[i].(name := n);
        assert FirstFor(more, d, n, i) && more[i] == nodes[i];
      } else {
        assert FirstFor(more, d, n, |nodes|) && more[|nodes|] == e;
      }
    }
  }

  lemma KeptNames(s: Sessions, next: nat)
    requires Kept(s, next)
    ensures forall n :: n in s ==> s[n].name == n
  {}

  /** After the renaming every name on disk has a session that goes by it. */
  lemma Renamed(s1: Sessions, s2: Sessions, s3: Sessions, d: map<nat, Record>, moved: seq<string>, nodes: seq<Session>)
    requires |nodes| == |moved| && forall n :: n in s1 ==> s1[n].rec.uid in d
    requires forall n :: n in moved <==> n in s1 && NameOnDisk(d, s1[n]) != n
    requires forall n :: n in s1 ==> s1[n].name == n
    requires forall i :: 0 <= i < |moved| ==> nodes[i] == s1[moved[i]]
    requires forall n :: n in s2 <==> n in s1 && n !in moved
    requires forall n :: n in s2 ==> s2[n] == s1[n]
    requires Inserted(s2, nodes, d, s3)
    ensures RenamedTo(s1, s3, d)
  {
    hide NameOnDisk;
    forall n | n in s1
      ensures NameOnDisk(d, s1[n]) in s3 && (NameOnDisk(d, s1[n]) == n ==> s3[n] == s1[n])
    {
      if n in moved {
        var i :| 0 <= i < |moved| && moved[i] == n;
        assert nodes[i] == s1[n];
      } else {
        assert n in s2;
      }
    }
    forall m | m in s3
      ensures exists n :: n in s1 && NameOnDisk(d, s1[n]) == m && s3[m] == s1[n].(name := m)
    {
      if m in s2 {
        assert m in s1 && m !in moved && s3[m] == s1[m].(name := m);
      } else {
        var i :| FirstFor(nodes, d, m, i) && s3[m] == nodes[i].(name := m);
        assert moved[i] in moved && nodes[i] == s1[moved[i]];
      }
    }
  }

  /** Which renamed sessions are still there afterwards. */
  lemma LostOrNot(s1: Sessions, s2: Sessions, s3: Sessions, d: map<nat, Record>, moved: seq<string>, nodes: seq<Session>, next: nat)
    requires Kept(s1, next) && |nodes| == |moved|
    requires forall n :: n in moved <==> n in s1 && NameOnDisk(d, s1[n]) != n
    requires forall i, j :: 0 <= i < j < |moved| ==> moved[i] != moved[j]
    requires forall i :: 0 <= i < |moved| ==> nodes[i] == s1[moved[i]]
    requires forall n :: n in s2 <==> n in s1 && n !in moved
    requires forall n :: n in s2 ==> s2[n] == s1[n]
    requires Inserted(s2, nodes, d, s3)
    ensures forall i :: 0 <= i < |moved| ==> (Holds(s3, s1[moved[i]]) <==> WayFree(s1, d, moved, i))
  {
    forall i | 0 <= i < |moved|
      ensures Holds(s3, s1[moved[i]]) <==> WayFree(s1, d, moved, i)
    {
      assert moved[i] in moved;
      LostOrNotOne(s1, s2, s3, d, moved, nodes, i);
    }
  }

  lemma LostOrNotOne(s1: Sessions, s2: Sessions, s3: Sessions, d: map<nat, Record>, moved: seq<string>, nodes: seq<Session>, i: nat)
    requires DistinctObjects(s1) && |nodes| == |moved| && i < |moved| && forall n :: n in moved ==> n in s1
    requires forall i, j :: 0 <= i < j < |moved| ==> moved[i] != moved[j]
    requires forall i :: 0 <= i < |moved| ==> nodes[i] == s1[moved[i]]
    requires forall n :: n in s2 <==> n in s1 && n !in moved
    requires forall n :: n in s2 ==> s2[n] == s1[n]
    requires Inserted(s2, nodes, d, s3)
    ensures Holds(s3, s1[moved[i]]) <==> WayFree(s1, d, moved, i)
  {
    assert moved[i] in moved;
    WayIsFirst(s1, s2, d, moved, nodes, i);
    hide NameOnDisk, FirstFor, WayFree;
    if WayFree(s1, d, moved, i) {
      FirstHeld(s2, s3, d, nodes, i);
    }
    if Holds(s3, s1[moved[i]]) {
      HeldFirst(s1, s2, s3, d, moved, nodes, i);
    }
  }

  lemma WayIsFirst(s1: Sessions, s2: Sessions, d: map<nat, Record>, moved: seq<string>, nodes: seq<Session>, i: nat)
    requires |nodes| == |moved| && i < |moved| && forall n :: n in moved ==> n in s1
    requires forall i :: 0 <= i < |moved| ==> nodes[i] == s1[moved[i]]
    requires forall n :: n in s2 <==> n in s1 && n !in moved
    ensures WayFree(s1, d, moved, i) <==> FirstFor(nodes, d, NameOnDisk(d, nodes[i]), i) && NameOnDisk(d, nodes[i]) !in s2
  {
    hide NameOnDisk;
    assert forall j :: 0 <= j < i ==> NameOnDisk(d, nodes[j]) == NameOnDisk(d, s1[moved[j]]);
  }

  lemma FirstHeld(s2: Sessions, s3: Sessions, d: map<nat, Record>, nodes: seq<Session>, i: nat)
    requires Inserted(s2, nodes, d, s3) && i < |nodes|
    requires FirstFor(nodes, d, NameOnDisk(d, nodes[i]), i) && NameOnDisk(d, nodes[i]) !in s2
    ensures Holds(s3, nodes[i])
  {
    hide NameOnDisk;
    var m := NameOnDisk(d, nodes[i]);
    var k :| FirstFor(nodes, d, m, k) && s3[m] == nodes[k].(name := m);
    assert k == i;
    assert s3[m].self == nodes[i].self;
  }

  /** A renamed session that is there was put there, as the first to want the name. */
  lemma HeldFirst(s1: Sessions, s2: Sessions, s3: Sessions, d: map<nat, Record>, moved: seq<string>, nodes: seq<Session>, i: nat)
    requires DistinctObjects(s1) && |nodes| == |moved| && i < |moved| && forall n :: n in moved ==> n in s1
    requires forall i, j :: 0 <= i < j < |moved| ==> moved[i] != moved[j]
    requires forall i :: 0 <= i < |moved| ==> nodes[i] == s1[moved[i]]
    requires forall n :: n in s2 <==> n in s1 && n !in moved
    requires forall n :: n in s2 ==> s2[n] == s1[n]
    requires Inserted(s2, nodes, d, s3) && Holds(s3, nodes[i])
    ensures FirstFor(nodes, d, NameOnDisk(d, nodes[i]), i) && NameOnDisk(d, nodes[i]) !in s2
  {
    hide NameOnDisk;
    var n := moved[i];
    assert n in moved;
    var p :| p in s3 && s3[p].self == s1[n].self;
    assert p !in s2 by {
      assert p in s1 && s1[p].self == s1[n].self ==> p == n;
    }
    var k :| FirstFor(nodes, d, p, k) && s3[p] == nodes[k].(name := p);
    assert moved[k] in moved;
    assert moved[k] == n && k == i;
  }

  lemma RenamedKept(s: Sessions, t: Sessions, d: map<nat, Record>, next: nat)
    requires RenamedTo(s, t, d) && Kept(s, next) && forall n :: n in s ==> s[n].rec.uid in d
    ensures Kept(t, next) && AllNamed(t, d)
  {
    hide NameOnDisk;
    forall m | m in t
      ensures t[m].name == m && t[m].self < next && t[m].rec.uid in d && NameOnDisk(d, t[m]) == m
    {
      var n :| n in s && NameOnDisk(d, s[n]) == m && t[m] == s[n].(name := m);
      SameOnDisk(d, s[n], t[m]);
    }
    RenamedObjects(s, t, d);
  }

  lemma RenamedObjects(s: Sessions, t: Sessions, d: map<nat, Record>)
    requires RenamedTo(s, t, d) && DistinctObjects(s)
    ensures DistinctObjects(t)
  {
    hide NameOnDisk;
    forall a, b | a in t && b in t && t[a].self == t[b].self
      ensures a == b
    {
      var n :| n in s && NameOnDisk(d, s[n]) == a && t[a] == s[n].(name := a);
      var m :| m in s && NameOnDisk(d, s[m]) == b && t[b] == s[m].(name := b);
      assert n == m;
    }
  }

  lemma SameOnDisk(d: map<nat, Record>, a: Session, b: Session)
    requires a.rec == b.rec
    ensures NameOnDisk(d, a) == NameOnDisk(d, b)
  {}

  /** A uid's session can only be under its file's name. */
  lemma OnlyItsName(s: Sessions, d: map<nat, Record>, uid: nat)
    requires AllNamed(s, d) && WellKeyed(d) && DistinctNames(d) && uid in d
    ensures forall n :: n in s ==> (s[n].rec.uid == uid <==> n == d[uid].name)
  {}

  lemma FollowStarts(s: Sessions, next: nat, d: map<nat, Record>)
    requires AllNamed(s, d)
    ensures Following(s, next, d, d.Keys, s)
  {}

  lemma FollowSteps(s0: Sessions, next0: nat, d: map<nat, Record>, uids: set<nat>, s: Sessions, next: nat, uid: nat, t: Sessions, next1: nat)
    requires Following(s0, next0, d, uids, s) && Kept(s, next) && AllNamed(s, d) && WellKeyed(d) && DistinctNames(d)
    requires uid in d && next0 <= next
    requires var m := d[uid].name;
             || (m !in s && t == s[m := Session(next, m, d[uid])] && next1 == next + 1)
             || (m in s && t == s[m := s[m].(rec := d[uid])] && next1 == next)
    ensures Following(s0, next0, d, uids - {uid}, t) && Kept(t, next1) && AllNamed(t, d)
  {
    hide Kept, Following, DistinctNames;
    OnlyItsName(s, d, uid);
    FollowedKept(s, next, d, uid, t, next1);
    var m := d[uid].name;
    FollowedOn(s0, next0, d, uids, s, uid, m, t[m], t);
  }

  lemma FollowedOn(s0: Sessions, next0: nat, d: map<nat, Record>, uids: set<nat>, s: Sessions, uid: nat, m: string, e: Session, t: Sessions)
    requires Following(s0, next0, d, uids, s) && uid in d && d[uid].name == m && d[uid].uid == uid
    requires t == s[m := e] && e.rec == d[uid] && (m in s ==> e.self == s[m].self) && (m !in s ==> e.self >= next0)
    requires forall n :: n in s ==> (s[n].rec.uid == uid <==> n == m)
    ensures Following(s0, next0, d, uids - {uid}, t)
  {}

  lemma FollowedKept(s: Sessions, next: nat, d: map<nat, Record>, uid: nat, t: Sessions, next1: nat)
    requires Kept(s, next) && AllNamed(s, d) && WellKeyed(d) && uid in d
    requires forall n :: n in s ==> (s[n].rec.uid == uid <==> n == d[uid].name)
    requires var m := d[uid].name;
             || (m !in s && t == s[m := Session(next, m, d[uid])] && next1 == next + 1)
             || (m in s && t == s[m := s[m].(rec := d[uid])] && next1 == next)
    ensures Kept(t, next1) && AllNamed(t, d)
  {}

  lemma FollowedReloads(s: Sessions, s1: Sessions, next: nat, d: map<nat, Record>, t: Sessions, later: nat)
    requires Kept(s, next) && WellKeyed(d) && DistinctNames(d) && s1 == Remaining(s, d)
    requires exists s2 :: RenamedTo(s1, s2, d) && Following(s2, next, d, {}, t)
    requires AllNamed(t, d) && Kept(t, later)
    ensures Reloaded(s, next, d, t, Lost(s, d))
  {
    var s2 :| RenamedTo(s1, s2, d) && Following(s2, next, d, {}, t);
    KeptObjects(s, s1, s2, next, d, t);
    NewObjects(s, s1, s2, next, d, t);
    NameForName(s2, next, d, t);
  }

  lemma KeptObjects(s: Sessions, s1: Sessions, s2: Sessions, next: nat, d: map<nat, Record>, t: Sessions)
    requires s1 == Remaining(s, d) && RenamedTo(s1, s2, d) && Following(s2, next, d, {}, t)
    requires DistinctNames(d)
    ensures forall n :: n in s && s[n].rec.uid in d ==> GoesOn(s, n, d[s[n].rec.uid].name, t)
  {
    forall n | n in s && s[n].rec.uid in d
      ensures GoesOn(s, n, d[s[n].rec.uid].name, t)
    {
      assert n in s1;
      var m := d[s[n].rec.uid].name;
      assert m in s2;
      var k :| k in s1 && NameOnDisk(d, s1[k]) == m && s2[m] == s1[k].(name := m);
      assert k in s && s[k].rec.uid == s[n].rec.uid && s[k].self == t[m].self;
      assert m in s && s[m].rec.uid == s[n].rec.uid ==> m in s1 && s2[m] == s1[m];
    }
  }

  lemma NewObjects(s: Sessions, s1: Sessions, s2: Sessions, next: nat, d: map<nat, Record>, t: Sessions)
    requires s1 == Remaining(s, d) && RenamedTo(s1, s2, d) && Following(s2, next, d, {}, t) && AllNamed(t, d) && DistinctNames(d)
    ensures forall m :: m in t && (forall n :: n in s ==> s[n].rec.uid != t[m].rec.uid) ==> t[m].self >= next
  {
    forall m | m in t && m in s2
      ensures exists n :: n in s && s[n].rec.uid == t[m].rec.uid
    {
      var n :| n in s1 && NameOnDisk(d, s1[n]) == m;
      assert n in s;
      assert d[s[n].rec.uid].name == m == d[t[m].rec.uid].name;
    }
  }

  lemma NameForName(s2: Sessions, next: nat, d: map<nat, Record>, t: Sessions)
    requires Following(s2, next, d, {}, t) && AllNamed(t, d) && WellKeyed(d) && DistinctNames(d)
    ensures forall n :: n in t ==> t[n].rec.uid in d && d[t[n].rec.uid] == t[n].rec && t[n].rec.name == n
    ensures forall u :: u in d ==> d[u].name in t && t[d[u].name].rec == d[u]
  {}

  // ---- what reloading means ----

  /** No session of a peer on disk is lost exactly when no two of them are of one peer. */
  lemma NoneLost(s: Sessions, next: nat, d: map<nat, Record>, t: Sessions, dropped: set<nat>)
    requires Reloaded(s, next, d, t, dropped) && Kept(s, next)
    ensures (forall n :: n in s && s[n].rec.uid in d ==> Holds(t, s[n])) <==> DistinctUids(Remaining(s, d))
  {
    hide Kept, Reloaded, Holds;
    if DistinctUids(Remaining(s, d)) {
      forall n | n in s && s[n].rec.uid in d
        ensures Holds(t, s[n])
      {
        SoleHere(s, d, n);
        SoleKept(s, next, d, t, dropped, n);
      }
    }
    if forall n :: n in s && s[n].rec.uid in d ==> Holds(t, s[n]) {
      forall a, b | a in Remaining(s, d) && b in Remaining(s, d) && s[a].rec.uid == s[b].rec.uid
        ensures a == b
      {
        HeldUnder(s, next, d, t, dropped, a);
        HeldUnder(s, next, d, t, dropped, b);
        assert s[a].self == s[b].self;
        SameObject(s, next, a, b);
      }
    }
  }

  lemma SoleHere(s: Sessions, d: map<nat, Record>, n: string)
    requires DistinctUids(Remaining(s, d)) && n in s && s[n].rec.uid in d
    ensures forall m :: m in s && s[m].rec.uid == s[n].rec.uid ==> m == n
  {
    assert forall m :: m in s && s[m].rec.uid == s[n].rec.uid ==> m in Remaining(s, d);
  }

  lemma SameObject(s: Sessions, next: nat, a: string, b: string)
    requires Kept(s, next) && a in s && b in s && s[a].self == s[b].self
    ensures a == b
  {}

  /** A session that is still there is under its file's name. */
  lemma HeldUnder(s: Sessions, next: nat, d: map<nat, Record>, t: Sessions, dropped: set<nat>, n: string)
    requires Reloaded(s, next, d, t, dropped) && Kept(s, next) && n in s && s[n].rec.uid in d && Holds(t, s[n])
    ensures var m := d[s[n].rec.uid].name; m in t && t[m].self == s[n].self
  {
    hide GoesOn;
    var m :| m in t && t[m].self == s[n].self;
    assert t[m].self < next;
    var k :| k in s && s[k].rec.uid == t[m].rec.uid;
    assert d[t[m].rec.uid].name == m && GoesOn(s, k, m, t);
    var j := Continued(s, k, m, t);
    hide Reloaded;
    SameObject(s, next, j, n);
  }

  lemma Continued(s: Sessions, n: string, m: string, t: Sessions) returns (k: string)
    requires n in s && GoesOn(s, n, m, t)
    ensures m in t && k in s && s[k].rec.uid == s[n].rec.uid && s[k].self == t[m].self
  {
    k :| k in s && s[k].rec.uid == s[n].rec.uid && s[k].self == t[m].self;
  }

  /** The only session of its peer goes on, under the name its file now has. */
  lemma SoleKept(s: Sessions, next: nat, d: map<nat, Record>, t: Sessions, dropped: set<nat>, n: string)
    requires Reloaded(s, next, d, t, dropped) && n in s && s[n].rec.uid in d
    requires forall m :: m in s && s[m].rec.uid == s[n].rec.uid ==> m == n
    ensures var m := d[s[n].rec.uid].name; m in t && t[m].self == s[n].self && Holds(t, s[n])
  {
    var k := Continued(s, n, d[s[n].rec.uid].name, t);
  }

  /** A peer file renamed by hand, and the peer called by its new name before a reload: the
      session it had is then lost, and was not dropped. */
  lemma CalledByNewName(s: Sessions, next: nat, d: map<nat, Record>, t: Sessions, dropped: set<nat>, n: string)
    requires Kept(s, next) && n in s && s[n].rec.uid in d && d[s[n].rec.uid].name !in s
    requires var rec := d[s[n].rec.uid];
             Reloaded(s[rec.name := Session(next, rec.name, rec)], next + 1, d, t, dropped)
    requires WellKeyed(d)
    ensures !Holds(t, s[n]) && s[n].self !in dropped
  {
    hide Reloaded, Kept, Holds;
    var rec := d[s[n].rec.uid];
    var s1 := s[rec.name := Session(next, rec.name, rec)];
    StartedKept(s, next, rec);
    assert n in s1 && s1[n] == s[n] && rec.uid == s[n].rec.uid;
    TakenBy(s1, next + 1, d, t, dropped, n);
    NotDropped(s1, next + 1, d, t, dropped, n);
  }

  lemma StartedKept(s: Sessions, next: nat, rec: Record)
    requires Kept(s, next) && rec.name !in s
    ensures Kept(s[rec.name := Session(next, rec.name, rec)], next + 1)
  {}

  /** A session whose file has the name of another session of the peer is lost. */
  lemma TakenBy(s: Sessions, next: nat, d: map<nat, Record>, t: Sessions, dropped: set<nat>, n: string)
    requires Reloaded(s, next, d, t, dropped) && Kept(s, next) && n in s && s[n].rec.uid in d
    requires var m := d[s[n].rec.uid].name; m in s && m != n && s[m].rec.uid == s[n].rec.uid
    ensures !Holds(t, s[n])
  {
    hide Kept;
    var m := d[s[n].rec.uid].name;
    assert GoesOn(s, n, m, t);
    hide Reloaded;
    if Holds(t, s[n]) {
      HeldUnder(s, next, d, t, dropped, n);
      SameObject(s, next, n, m);
      assert false;
    }
  }

  lemma NotDropped(s: Sessions, next: nat, d: map<nat, Record>, t: Sessions, dropped: set<nat>, n: string)
    requires Reloaded(s, next, d, t, dropped) && Kept(s, next) && n in s && s[n].rec.uid in d
    ensures s[n].self !in dropped
  {
    hide GoesOn;
    assert forall m :: m in s && s[m].self == s[n].self ==> m == n;
  }

  /** Two peers that swapped names, or any cycle of them, keep their sessions: each goes
      on under the name its file now has. */
  lemma SwapKeepsSessions(s: Sessions, next: nat, d: map<nat, Record>, t: Sessions, dropped: set<nat>, a: string, b: string)
    requires Reloaded(s, next, d, t, dropped) && Kept(s, next) && DistinctUids(s) && a in s && b in s && a != b
    requires s[a].rec.uid in d && s[b].rec.uid in d && d[s[a].rec.uid].name == b && d[s[b].rec.uid].name == a
    ensures a in t && b in t && t[b].self == s[a].self && t[a].self == s[b].self
    ensures s[a].self !in dropped && s[b].self !in dropped
  {
    SoleKept(s, next, d, t, dropped, a);
    SoleKept(s, next, d, t, dropped, b);
    NotDropped(s, next, d, t, dropped, a);
    NotDropped(s, next, d, t, dropped, b);
  }

  /** Reloading again from the same files changes nothing. */
  lemma ReloadTwice(s: Sessions, next: nat, d: map<nat, Record>, t: Sessions, dropped: set<nat>, next2: nat, u: Sessions, dropped2: set<nat>)
    requires WellKeyed(d) && Reloaded(s, next, d, t, dropped) && Reloaded(t, next2, d, u, dropped2)
    ensures u == t && dropped2 == {}
  {
    forall n | n in t
      ensures n in u && u[n] == t[n]
    {
      assert d[t[n].rec.uid].name == n;
    }
    forall n | n in u
      ensures n in t
    {
      assert d[u[n].rec.uid].name in t;
    }
  }
}
