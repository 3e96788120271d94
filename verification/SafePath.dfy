/** safe_relpath (src/peer/pipes.cpp): a received path reduced to one that cannot leave
    the target directory. */
module SafePath {
  function Last<T>(s: seq<T>): T
    requires s != []
  {
    s[|s| - 1]
  }

  function Front<T>(s: seq<T>): seq<T>
    requires s != []
  {
    s[..|s| - 1]
  }

  /** The components of a path, empty ones included. */
  function Split(s: string): (cs: seq<string>)
    ensures cs != []
  {
    if s == [] then [""] else Extend(Split(Front(s)), Last(s))
  }

  function Extend(cs: seq<string>, c: char): (r: seq<string>)
    requires cs != []
    ensures r != []
  {
    if c == '/' then cs + [""] else Front(cs) + [Last(cs) + [c]]
  }

  predicate Proper(c: string) {
    c != "" && c != "." && c != ".."
  }

  /** A relative path that stays where it is put: no empty, "." or ".." component. */
  predicate IsProper(path: string) {
    forall k :: 0 <= k < |Split(path)| ==> Proper(Split(path)[k])
  }

  function Kept(cs: seq<string>): seq<string> {
    if cs == [] then []
    else Kept(Front(cs)) + if Proper(Last(cs)) then [Last(cs)] else []
  }

  function Join(cs: seq<string>): string {
    if cs == [] then ""
    else if |cs| == 1 then cs[0]
    else Join(Front(cs)) + "/" + Last(cs)
  }

  function Safe(rel: string): string {
    var kept := Kept(Split(rel));
    if kept == [] then "received.file" else Join(kept)
  }

  /** The loop of the source: one pass, a component buffer and an output buffer. */
  method SafeRelpath(rel: string) returns (out: string)
    ensures out == Safe(rel)
  {
    hide Split, Join, Kept, Extend;
    out := "";
    var comp := "";
    var i := 0;
    ghost var cs := [""];
    Nothing();
    while i < |rel|
      invariant 0 <= i <= |rel|
      invariant cs == Split(rel[..i]) && cs != []
      invariant out == Join(Kept(Front(cs))) && comp == Last(cs)
    {
      assert rel[..i + 1] == rel[..i] + [rel[i]];
      SplitSnoc(rel[..i], rel[i]);
      if rel[i] == '/' {
        out, comp := Flush(out, comp, cs);
      } else {
        comp := comp + [rel[i]];
      }
      ExtendEnds(cs, rel[i]);
      cs := Extend(cs, rel[i]);
      i := i + 1;
    }
    assert rel[..i] == rel;
    out, comp := Flush(out, comp, cs);
    JoinNonEmpty(cs);
    if out == "" {
      out := "received.file";
    }
  }

  lemma Nothing()
    ensures Split("") == [""] && Join(Kept(Front([""]))) == ""
  {
    assert Front([""]) == [];
  }

  lemma SplitSnoc(s: string, c: char)
    ensures Split(s + [c]) == Extend(Split(s), c)
  {
    assert Front(s + [c]) == s;
  }

  lemma ExtendEnds(cs: seq<string>, c: char)
    requires cs != []
    ensures Front(Extend(cs, c)) == if c == '/' then cs else Front(cs)
    ensures Last(Extend(cs, c)) == if c == '/' then "" else Last(cs) + [c]
  {}

  method Flush(out0: string, comp0: string, ghost cs: seq<string>) returns (out: string, comp: string)
    requires cs != [] && out0 == Join(Kept(Front(cs))) && comp0 == Last(cs)
    ensures out == Join(Kept(cs)) && comp == ""
  {
    JoinNonEmpty(Front(cs));
    var before := Kept(Front(cs));
    assert Front(before + [comp0]) == before;
    out := out0;
    if comp0 == "" || comp0 == "." || comp0 == ".." {
      assert before + [] == before;
      return out, "";
    }
    if out != "" {
      out := out + "/";
    }
    out := out + comp0;
    comp := "";
  }

  lemma {:induction false} KeptProper(cs: seq<string>)
    ensures forall k :: 0 <= k < |Kept(cs)| ==> Proper(Kept(cs)[k]) && Kept(cs)[k] in cs
  {
    if cs != [] {
      KeptProper(Front(cs));
    }
  }

  lemma JoinNonEmpty(cs: seq<string>)
    ensures Join(Kept(cs)) == "" <==> Kept(cs) == []
  {
    KeptProper(cs);
    var k := Kept(cs);
    assert |k| == 1 ==> Proper(k[0]);
  }

  // ---- what the result is good for ----

  lemma {:induction false} SplitNoSlash(s: string)
    ensures forall k :: 0 <= k < |Split(s)| ==> '/' !in Split(s)[k]
  {
    if s != [] {
      SplitNoSlash(Front(s));
    }
  }

  lemma {:induction false} SplitPlain(c: string)
    requires '/' !in c
    ensures Split(c) == [c]
  {
    if c != [] {
      SplitPlain(Front(c));
      assert Last(c) in c && Front(c) + [Last(c)] == c;
      assert Front([Front(c)]) == [];
    }
  }

  lemma {:induction false} SplitAfter(s: string, c: string)
    requires '/' !in c
    ensures Split(s + "/" + c) == Split(s) + [c]
  {
    var t := s + "/" + c;
    if c == [] {
      assert Front(t) == s && Last(t) == '/';
    } else {
      SplitAfter(s, Front(c));
      assert Front(t) == s + "/" + Front(c) && Last(t) == Last(c);
      assert Last(c) in c && Front(c) + [Last(c)] == c;
      assert Front(Split(s) + [Front(c)]) == Split(s);
    }
  }

  lemma {:induction false} SplitJoin(cs: seq<string>)
    requires cs != [] && forall k :: 0 <= k < |cs| ==> '/' !in cs[k]
    ensures Split(Join(cs)) == cs
  {
    hide Split;
    if |cs| == 1 {
      SplitPlain(cs[0]);
    } else {
      SplitJoin(Front(cs));
      SplitAfter(Join(Front(cs)), Last(cs));
    }
  }

  lemma {:induction false} JoinSplit(s: string)
    ensures Join(Split(s)) == s
  {
    hide Join, Extend;
    if s == [] {
      assert Split("") == [""];
      JoinOne("");
    } else {
      JoinSplit(Front(s));
      JoinExtend(Split(Front(s)), Last(s));
      assert Front(s) + [Last(s)] == s;
    }
  }

  lemma JoinOne(c: string)
    ensures Join([c]) == c
  {}

  lemma JoinExtend(cs: seq<string>, c: char)
    requires cs != []
    ensures Join(Extend(cs, c)) == Join(cs) + [c]
  {
    if c == '/' {
      assert Front(cs + [""]) == cs;
    } else {
      assert Front(Front(cs) + [Last(cs) + [c]]) == Front(cs);
      if |cs| > 1 {
        assert Join(Front(cs)) + "/" + (Last(cs) + [c]) == Join(Front(cs)) + "/" + Last(cs) + [c];
      }
    }
  }

  lemma {:induction false} KeptAll(cs: seq<string>)
    requires forall k :: 0 <= k < |cs| ==> Proper(cs[k])
    ensures Kept(cs) == cs
  {
    hide Proper;
    if cs != [] {
      var f := Front(cs);
      assert forall k :: 0 <= k < |f| ==> f[k] == cs[k];
      KeptAll(f);
      assert f + [Last(cs)] == cs;
    }
  }

  /** Whatever the peer sends, the path stored has no empty, "." or ".." component (so
      it is relative and stays below the target), reducing it again changes nothing,
      and exactly the paths that were already proper are kept as they are. */
  lemma SafeStaysInside(rel: string)
    ensures forall k :: 0 <= k < |Split(Safe(rel))| ==> Proper(Split(Safe(rel))[k])
    ensures Safe(Safe(rel)) == Safe(rel)
    ensures (forall k :: 0 <= k < |Split(rel)| ==> Proper(Split(rel)[k])) <==> Safe(rel) == rel
  {
    hide Split, Join, Kept;
    var kept := Kept(Split(rel));
    KeptProper(Split(rel));
    SplitNoSlash(rel);
    if kept == [] {
      SplitPlain("received.file");
    } else {
      SplitJoin(kept);
    }
    KeptAll(Split(Safe(rel)));
    JoinSplit(Safe(rel));
    JoinSplit(rel);
    if forall k :: 0 <= k < |Split(rel)| ==> Proper(Split(rel)[k]) {
      KeptAll(Split(rel));
    }
  }

  /** `at` picks, in order, just the proper ones of some components. */
  predicate Picks(cs: seq<string>, at: seq<nat>) {
    && (forall i, j :: 0 <= i < j < |at| ==> at[i] < at[j])
    && (forall k :: 0 <= k < |at| ==> at[k] < |cs| && Proper(cs[at[k]]))
    && (forall i :: 0 <= i < |cs| && Proper(cs[i]) ==> i in at)
  }

  lemma {:induction false} KeptPicked(cs: seq<string>) returns (at: seq<nat>)
    ensures Picks(cs, at) && |Kept(cs)| == |at|
    ensures forall k :: 0 <= k < |at| ==> Kept(cs)[k] == cs[at[k]]
  {
    hide Proper;
    if cs == [] {
      at := [];
    } else {
      var before := KeptPicked(Front(cs));
      at := before + if Proper(Last(cs)) then [|cs| - 1] else [];
      forall i | 0 <= i < |cs| && Proper(cs[i])
        ensures i in at
      {
        if i < |cs| - 1 {
          assert Proper(Front(cs)[i]);
        }
      }
    }
  }

  /** The reduced path has exactly the proper components of what was received, in order;
      without any it is received.file. */
  lemma SafeKeepsProper(rel: string) returns (at: seq<nat>)
    ensures Picks(Split(rel), at)
    ensures at == [] ==> Safe(rel) == "received.file"
    ensures at != [] ==> |Split(Safe(rel))| == |at| && forall k :: 0 <= k < |at| ==> Split(Safe(rel))[k] == Split(rel)[at[k]]
  {
    hide Split, Join, Kept, Proper;
    at := KeptPicked(Split(rel));
    if at != [] {
      SplitNoSlash(rel);
      SplitJoin(Kept(Split(rel)));
    }
  }
}
