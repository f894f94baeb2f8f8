/** Properties of the directional candidate walk: how a walk over a
    concatenated traversal decomposes, the depth asymmetry between the two
    directions, the stop at a foreign device type, the discarding of sections
    with placeholders, conflict monotonicity, and where candidates come from. */
module WalkProperties {
  import opened Conductors
  import opened DefaultCheck
  import opened CandidateWalk

  /** Walking `s1 + s2` is walking `s1` and, unless that ended the walk,
      continuing with `s2` from where `s1` left the walker. */
  lemma {:induction false} WalkAppend(view: map<SectionId, Entry>, q: Search, cfg: Config,
                                      s1: seq<Step>, s2: seq<Step>, w: Walker)
    requires Carries(view, q) && Tracks(w, q)
    ensures Walk(view, q, cfg, s1, w).Halt? ==> Walk(view, q, cfg, s1 + s2, w) == Walk(view, q, cfg, s1, w)
    ensures Walk(view, q, cfg, s1, w).Next? ==>
            Walk(view, q, cfg, s1 + s2, w) == Walk(view, q, cfg, s2, Walk(view, q, cfg, s1, w).w)
    decreases |s1|
  {
    if s1 == [] {
      assert s1 + s2 == s2;
    } else {
      assert (s1 + s2)[0] == s1[0];
      assert (s1 + s2)[1..] == s1[1..] + s2;
      match Visit(view, q, cfg, s1[0], w)
      case Halt(w') =>
      case Next(w') =>
        WalkAppend(view, q, cfg, s1[1..], s2, w');
    }
  }

  /** Walking `s1 + [x] + s2`, once `s1` has left the walker at `w'`, is
      the visit of `x` from `w'` followed, unless it ends the walk, by the
      walk over `s2`. */
  lemma WalkSplice(view: map<SectionId, Entry>, q: Search, cfg: Config,
                   s1: seq<Step>, x: Step, s2: seq<Step>, w: Walker, w': Walker)
    requires Carries(view, q) && Tracks(w, q)
    requires Walk(view, q, cfg, s1, w) == Next(w')
    ensures Tracks(w', q)
    ensures Walk(view, q, cfg, s1 + [x] + s2, w) ==
            match Visit(view, q, cfg, x, w')
            case Halt(v) => Halt(v)
            case Next(v) => Walk(view, q, cfg, s2, v)
  {
    WalkAppend(view, q, cfg, s1, [x] + s2, w);
    assert s1 + [x] + s2 == s1 + ([x] + s2);
    assert ([x] + s2)[0] == x && ([x] + s2)[1..] == s2;
  }

  /** A second visit to the source's own section contributes no candidate
      and pushes the horizon one level further. */
  lemma StartRevisitExtendsHorizon(view: map<SectionId, Entry>, q: Search, cfg: Config,
                                   s1: seq<Step>, x: Step, s2: seq<Step>, w: Walker, w': Walker)
    requires Carries(view, q) && Tracks(w, q)
    requires Walk(view, q, cfg, s1, w) == Next(w')
    requires x.section == q.start
    ensures Walk(view, q, cfg, s1 + [x] + s2, w) == Walk(view, q, cfg, s2, w'.(depthMax := w'.depthMax + 1))
  {
    WalkSplice(view, q, cfg, s1, x, s2, w, w');
  }

  /** Upstream, the first section beyond the horizon ends the walk, whatever
      follows it. */
  lemma UpWalkEndsPastHorizon(view: map<SectionId, Entry>, q: Search, cfg: Config,
                              s1: seq<Step>, x: Step, s2: seq<Step>, w: Walker, w': Walker)
    requires Carries(view, q) && Tracks(w, q)
    requires q.dir == Up
    requires Walk(view, q, cfg, s1, w) == Next(w')
    requires x.section != q.start && x.depth > w'.depthMax
    ensures Walk(view, q, cfg, s1 + [x] + s2, w) == Halt(w')
  {
    WalkSplice(view, q, cfg, s1, x, s2, w, w');
  }

  /** Downstream, a section beyond the horizon is skipped: the walk is the
      same as if it were not in the traversal at all. */
  lemma DownWalkSkipsPastHorizon(view: map<SectionId, Entry>, q: Search, cfg: Config,
                                 s1: seq<Step>, x: Step, s2: seq<Step>, w: Walker, w': Walker)
    requires Carries(view, q) && Tracks(w, q)
    requires q.dir == Down
    requires Walk(view, q, cfg, s1, w) == Next(w')
    requires x.section != q.start && x.depth > w'.depthMax
    ensures Walk(view, q, cfg, s1 + [x] + s2, w) == Walk(view, q, cfg, s1 + s2, w)
  {
    WalkAppend(view, q, cfg, s1, [x] + s2, w);
    WalkAppend(view, q, cfg, s1, s2, w);
    assert s1 + [x] + s2 == s1 + ([x] + s2);
    assert ([x] + s2)[0] == x && ([x] + s2)[1..] == s2;
  }

  /** The walk stops at the first indexed section within the horizon whose
      device type differs from the source's, with the load flag cleared. */
  lemma WalkStopsAtForeignType(view: map<SectionId, Entry>, q: Search, cfg: Config,
                               s1: seq<Step>, x: Step, s2: seq<Step>, w: Walker, w': Walker)
    requires Carries(view, q) && Tracks(w, q)
    requires Walk(view, q, cfg, s1, w) == Next(w')
    requires x.section != q.start && x.depth <= w'.depthMax
    requires x.section in view && view[x.section].kind != q.kind
    ensures Walk(view, q, cfg, s1 + [x] + s2, w) == Halt(w'.(inKva := false))
  {
    WalkSplice(view, q, cfg, s1, x, s2, w, w');
  }

  /** A section that is not indexed contributes nothing and clears the load
      flag, so a walk whose last examined section is not indexed reports the
      load as out of range. */
  lemma UnindexedClearsLoad(view: map<SectionId, Entry>, q: Search, cfg: Config,
                            s1: seq<Step>, x: Step, s2: seq<Step>, w: Walker, w': Walker)
    requires Carries(view, q) && Tracks(w, q)
    requires Walk(view, q, cfg, s1, w) == Next(w')
    requires x.section != q.start && x.depth <= w'.depthMax && x.section !in view
    ensures Walk(view, q, cfg, s1 + [x] + s2, w) == Walk(view, q, cfg, s2, w'.(inKva := false))
  {
    WalkSplice(view, q, cfg, s1, x, s2, w, w');
  }

  /** A section of the searched type with a placeholder in any searched
      attribute leaves every candidate as it was; only its load counts. */
  lemma PlaceholderSectionDiscarded(view: map<SectionId, Entry>, q: Search, cfg: Config,
                                    s1: seq<Step>, x: Step, s2: seq<Step>, w: Walker, w': Walker, k: nat)
    requires Carries(view, q) && Tracks(w, q)
    requires Walk(view, q, cfg, s1, w) == Next(w')
    requires x.section != q.start && x.depth <= w'.depthMax
    requires x.section in view && view[x.section].kind == q.kind
    requires k < |q.attrs| && IsDefault(view[x.section].values[q.attrs[k]], cfg.defaults)
    ensures Walk(view, q, cfg, s1 + [x] + s2, w) ==
            Walk(view, q, cfg, s2, w'.(inKva := InKva(q.refKva, view[x.section].dwKva, cfg.kvaDiffMax)))
  {
    WalkSplice(view, q, cfg, s1, x, s2, w, w');
  }

  /** A section of the searched type within the horizon whose searched IDs
      are all concrete is folded in: every candidate is merged with the
      section's ID, the load flag is the section's, and the walk ends there
      exactly when every searched attribute is good. */
  lemma CleanSectionFolds(view: map<SectionId, Entry>, q: Search, cfg: Config,
                          s1: seq<Step>, x: Step, s2: seq<Step>, w: Walker, w': Walker)
    requires Carries(view, q) && Tracks(w, q)
    requires Walk(view, q, cfg, s1, w) == Next(w')
    requires x.section != q.start && x.depth <= w'.depthMax
    requires x.section in view && view[x.section].kind == q.kind
    requires forall k :: 0 <= k < |q.attrs| ==> !IsDefault(view[x.section].values[q.attrs[k]], cfg.defaults)
    ensures var inKva := InKva(q.refKva, view[x.section].dwKva, cfg.kvaDiffMax);
            var t := MergeAll(w'.cands, view[x.section].values, q.attrs);
            Walk(view, q, cfg, s1 + [x] + s2, w) ==
              if AllGood(t, q.attrs, inKva) then Halt(Walker(w'.depthMax, inKva, t))
              else Walk(view, q, cfg, s2, Walker(w'.depthMax, inKva, t))
  {
    WalkSplice(view, q, cfg, s1, x, s2, w, w');
  }

  /** Once an attribute is in conflict it stays in conflict to the end of
      the walk. */
  lemma {:induction false} WalkKeepsConflict(view: map<SectionId, Entry>, q: Search, cfg: Config,
                                             steps: seq<Step>, w: Walker, a: Attr)
    requires Carries(view, q) && Tracks(w, q)
    requires a in w.cands && w.cands[a] == CA
    ensures Walk(view, q, cfg, steps, w).w.cands[a] == CA
    decreases |steps|
  {
    if steps != [] {
      match Visit(view, q, cfg, steps[0], w)
      case Halt(w') =>
      case Next(w') =>
        WalkKeepsConflict(view, q, cfg, steps[1..], w', a);
    }
  }

  /** `v` is the value of attribute `a` at some step of the traversal that
      is indexed, of the searched type, and not a placeholder. */
  ghost predicate Seen(view: map<SectionId, Entry>, q: Search, cfg: Config, steps: seq<Step>, a: Attr, v: string)
  {
    exists k :: 0 <= k < |steps| && Offers(view, q, cfg, steps[k], a, v)
  }

  /** Section `s` is indexed, of the searched type, and holds the
      non-placeholder value `v` for `a`. */
  ghost predicate Offers(view: map<SectionId, Entry>, q: Search, cfg: Config, s: Step, a: Attr, v: string)
  {
    s.section in view && view[s.section].kind == q.kind && a in view[s.section].values &&
    view[s.section].values[a] == v && !IsDefault(v, cfg.defaults)
  }

  /** One visit either keeps a candidate, turns it into CA, or replaces it
      by the visited section's own non-placeholder value. */
  lemma VisitProvenance(view: map<SectionId, Entry>, q: Search, cfg: Config, s: Step, w: Walker, a: Attr)
    requires Carries(view, q) && Tracks(w, q) && a in q.attrs
    ensures var r := Visit(view, q, cfg, s, w).w.cands[a];
            r == w.cands[a] || r == CA || Offers(view, q, cfg, s, a, r)
  {
    if s.section != q.start && s.depth <= w.depthMax && s.section in view && view[s.section].kind == q.kind {
      var e := view[s.section];
      if !exists k :: 0 <= k < |q.attrs| && IsDefault(e.values[q.attrs[k]], cfg.defaults) {
        var k :| 0 <= k < |q.attrs| && q.attrs[k] == a;
        assert !IsDefault(e.values[a], cfg.defaults);
      }
    }
  }

  /** Candidates are never invented: at the end of a walk each candidate is
      the one the walk started with, CA, or the non-placeholder value of a
      step of the traversal that is indexed and of the searched type. */
  lemma {:induction false} WalkProvenance(view: map<SectionId, Entry>, q: Search, cfg: Config,
                                          steps: seq<Step>, w: Walker, a: Attr)
    requires Carries(view, q) && Tracks(w, q) && a in q.attrs
    ensures var r := Walk(view, q, cfg, steps, w).w.cands[a];
            r == w.cands[a] || r == CA || Seen(view, q, cfg, steps, a, r)
    decreases |steps|
  {
    if steps != [] {
      VisitProvenance(view, q, cfg, steps[0], w, a);
      match Visit(view, q, cfg, steps[0], w)
      case Halt(w') =>
        var r := w'.cands[a];
        if Offers(view, q, cfg, steps[0], a, r) {
          assert Seen(view, q, cfg, steps, a, r);
        }
      case Next(w') =>
        WalkProvenance(view, q, cfg, steps[1..], w', a);
        var r := Walk(view, q, cfg, steps[1..], w').w.cands[a];
        if Seen(view, q, cfg, steps[1..], a, r) {
          var k :| 0 <= k < |steps[1..]| && Offers(view, q, cfg, steps[1..][k], a, r);
          assert steps[1..][k] == steps[k + 1];
          assert Seen(view, q, cfg, steps, a, r);
        } else if r == w'.cands[a] && Offers(view, q, cfg, steps[0], a, r) {
          assert Seen(view, q, cfg, steps, a, r);
        }
    }
  }

  /** Every value a walk returns is CA or the non-placeholder value of a
      step of the traversal that is indexed and of the searched type. */
  lemma CandidatesProvenance(view: map<SectionId, Entry>, q: Search, cfg: Config, steps: seq<Step>, a: Attr)
    requires Carries(view, q) && a in q.attrs
    ensures Candidates(view, q, cfg, steps).0[a] == CA || Seen(view, q, cfg, steps, a, Candidates(view, q, cfg, steps).0[a])
  {
    var w0 := Walker(cfg.depthMax, false, Init(q.attrs));
    WalkProvenance(view, q, cfg, steps, w0, a);
  }

  /** A downstream walk that meets no indexed section of another type ends
      early only when every searched attribute is settled: CA, or found with
      the load in range. */
  lemma {:induction false} DownHaltIsSettled(view: map<SectionId, Entry>, q: Search, cfg: Config,
                                             steps: seq<Step>, w: Walker)
    requires Carries(view, q) && Tracks(w, q)
    requires q.dir == Down
    requires forall k :: 0 <= k < |steps| && steps[k].section in view ==> view[steps[k].section].kind == q.kind
    ensures Walk(view, q, cfg, steps, w).Halt? ==>
            AllGood(Walk(view, q, cfg, steps, w).w.cands, q.attrs, Walk(view, q, cfg, steps, w).w.inKva)
    decreases |steps|
  {
    if steps != [] {
      assert steps[0] == steps[0 + 0];
      match Visit(view, q, cfg, steps[0], w)
      case Halt(w') =>
      case Next(w') =>
        forall k | 0 <= k < |steps[1..]| && steps[1..][k].section in view
          ensures view[steps[1..][k].section].kind == q.kind
        {
          assert steps[1..][k] == steps[k + 1];
        }
        DownHaltIsSettled(view, q, cfg, steps[1..], w');
    }
  }
}
