/** The directional candidate walk: from a section with placeholder IDs, walk
    the network upstream or downstream, fold the IDs of nearby sections of the
    same device type into one candidate per attribute, and report whether the
    section where the walk ended had a comparable downstream load. */
module CandidateWalk {
  import opened Conductors
  import opened DefaultCheck

  function Abs(x: real): real
  {
    if x < 0.0 then -x else x
  }

  /** The load gate: the candidate's downstream kVA differs from the
      reference by strictly less than `kvaDiffMax` relative to the reference.
      A zero reference never passes. */
  function InKva(refKva: real, kva: real, kvaDiffMax: real): (inRange: bool)
    ensures refKva == 0.0 ==> !inRange
    ensures refKva > 0.0 ==> (inRange <==> Abs(kva - refKva) < kvaDiffMax * refKva)
    ensures refKva < 0.0 ==> (inRange <==> Abs(kva - refKva) > kvaDiffMax * refKva)
  {
    refKva != 0.0 && Abs(kva - refKva) / refKva < kvaDiffMax
  }

  /** Folds one section's ID into the running candidate: the first ID found
      is adopted, the same ID again changes nothing, a different one turns
      the candidate into CA for good. */
  function Merge(cand: string, v: string): (r: string)
    ensures r == v || r == CA
    ensures cand == NA ==> r == v
    ensures cand == CA ==> r == CA
    ensures cand != NA && cand != v ==> r == CA
    ensures cand == v ==> r == cand
  {
    if cand == NA then v else if cand == v then cand else CA
  }

  /** An attribute needs no further search: a candidate found with the load
      in range, or a conflict. */
  predicate Good(cand: string, inKva: bool)
  {
    (cand != NA && inKva) || cand == CA
  }

  /** Every searched attribute needs no further search. */
  predicate AllGood(t: map<Attr, string>, attrs: seq<Attr>, inKva: bool)
    requires forall a :: a in attrs ==> a in t
  {
    forall a :: a in attrs ==> Good(t[a], inKva)
  }

  /** What one walk searches for: the source device's type, its downstream
      kVA, its section, the direction, and the attributes to resolve. */
  datatype Search = Search(kind: DeviceType, refKva: real, start: SectionId, dir: Direction, attrs: seq<Attr>)

  /** The state of a walk: the current depth horizon, the load flag of the
      last section examined, and the candidate per attribute. */
  datatype Walker = Walker(depthMax: int, inKva: bool, cands: map<Attr, string>)

  /** The walk either goes on to the next step or ends here. */
  datatype Move = Next(w: Walker) | Halt(w: Walker)

  /** Every indexed section of the searched type carries the searched attributes. */
  ghost predicate Carries(view: map<SectionId, Entry>, q: Search)
  {
    forall s, k :: s in view && view[s].kind == q.kind && 0 <= k < |q.attrs| ==> q.attrs[k] in view[s].values
  }

  /** The walker holds a candidate for every searched attribute. */
  ghost predicate Tracks(w: Walker, q: Search)
  {
    forall a :: a in q.attrs ==> a in w.cands
  }

  function Init(attrs: seq<Attr>): (cands: map<Attr, string>)
    ensures forall a :: a in cands <==> a in attrs
    ensures forall a :: a in cands ==> cands[a] == NA
  {
    map a | a in attrs :: NA
  }

  /** The tentative candidates once a section's values are folded in. */
  function MergeAll(cands: map<Attr, string>, vals: map<Attr, string>, attrs: seq<Attr>): (r: map<Attr, string>)
    requires forall a :: a in attrs ==> a in vals
    ensures r.Keys == cands.Keys
  {
    map a | a in cands :: if a in attrs then Merge(cands[a], vals[a]) else cands[a]
  }

  /** The fold of one section's values into the candidates in the order of
      `attrs`, as the search loop performs it: the merged candidates and the
      number of attributes that still need searching. */
  function FoldAttrs(cands: map<Attr, string>, vals: map<Attr, string>, attrs: seq<Attr>, inKva: bool)
    : (r: (map<Attr, string>, nat))
    requires forall a :: a in attrs ==> a in vals && a in cands
    ensures r.0.Keys == cands.Keys
    decreases |attrs|
  {
    if attrs == [] then (cands, 0)
    else
      var a := attrs[|attrs| - 1];
      var prev := FoldAttrs(cands, vals, attrs[..|attrs| - 1], inKva);
      var t := prev.0[a := Merge(prev.0[a], vals[a])];
      (t, if Good(t[a], inKva) then prev.1 else prev.1 + 1)
  }

  /** Merging one more attribute changes that attribute only, and merging
      the same value twice changes nothing. */
  lemma MergeAllSnoc(cands: map<Attr, string>, vals: map<Attr, string>, pre: seq<Attr>, a: Attr)
    requires forall x :: x in pre ==> x in vals && x in cands
    requires a in vals && a in cands
    ensures MergeAll(cands, vals, pre + [a]) ==
            MergeAll(cands, vals, pre)[a := Merge(MergeAll(cands, vals, pre)[a], vals[a])]
  {
    var t := MergeAll(cands, vals, pre);
    var t' := MergeAll(cands, vals, pre + [a]);
    forall x | x in t'
      ensures t'[x] == t[a := Merge(t[a], vals[a])][x]
    {
      if x == a {
        assert Merge(Merge(cands[a], vals[a]), vals[a]) == Merge(cands[a], vals[a]);
      } else {
        assert x in pre + [a] <==> x in pre;
      }
    }
  }

  /** Folding attribute by attribute is the same as merging every searched
      attribute at once. */
  lemma {:induction false} FoldAttrsMerges(cands: map<Attr, string>, vals: map<Attr, string>, attrs: seq<Attr>,
                                           inKva: bool)
    requires forall a :: a in attrs ==> a in vals && a in cands
    ensures FoldAttrs(cands, vals, attrs, inKva).0 == MergeAll(cands, vals, attrs)
    decreases |attrs|
  {
    if attrs != [] {
      var n := |attrs| - 1;
      assert attrs == attrs[..n] + [attrs[n]];
      FoldAttrsMerges(cands, vals, attrs[..n], inKva);
      MergeAllSnoc(cands, vals, attrs[..n], attrs[n]);
    }
  }

  /** The fold leaves nothing to search exactly when every searched
      attribute is good. */
  lemma {:induction false} FoldAttrsCounts(cands: map<Attr, string>, vals: map<Attr, string>, attrs: seq<Attr>,
                                           inKva: bool)
    requires forall a :: a in attrs ==> a in vals && a in cands
    ensures FoldAttrs(cands, vals, attrs, inKva).1 == 0 <==> AllGood(FoldAttrs(cands, vals, attrs, inKva).0, attrs, inKva)
    decreases |attrs|
  {
    if attrs != [] {
      var n := |attrs| - 1;
      var a := attrs[n];
      var pre := attrs[..n];
      PrefixSnoc(attrs, n);
      assert attrs[..n + 1] == attrs;
      FoldAttrsCounts(cands, vals, pre, inKva);
      FoldAttrsMerges(cands, vals, pre, inKva);
      var t := FoldAttrs(cands, vals, pre, inKva).0;
      var t' := FoldAttrs(cands, vals, attrs, inKva).0;
      assert t' == t[a := Merge(t[a], vals[a])];
      forall x | x in pre
        ensures t'[x] == t[x]
      {
        if x == a {
          assert Merge(Merge(cands[a], vals[a]), vals[a]) == Merge(cands[a], vals[a]);
        }
      }
      if AllGood(t', attrs, inKva) {
        forall x | x in pre
          ensures Good(t[x], inKva)
        {
          assert x in attrs;
        }
      }
      if AllGood(t, pre, inKva) && Good(t'[a], inKva) {
        forall x | x in attrs
          ensures Good(t'[x], inKva)
        {
          if x != a {
            assert x in pre;
          }
        }
      }
    }
  }

  /** One section of the traversal. */
  ghost function Visit(view: map<SectionId, Entry>, q: Search, cfg: Config, s: Step, w: Walker): (m: Move)
    requires Carries(view, q) && Tracks(w, q)
    ensures m.w.cands.Keys == w.cands.Keys
    ensures m.w.depthMax == if s.section == q.start then w.depthMax + 1 else w.depthMax
    ensures forall a :: a in w.cands && w.cands[a] == CA ==> m.w.cands[a] == CA
  {
    if s.section == q.start then
      Next(w.(depthMax := w.depthMax + 1))
    else if s.depth > w.depthMax then
      if q.dir == Up then Halt(w) else Next(w)
    else if s.section !in view then
      Next(w.(inKva := false))
    else if view[s.section].kind != q.kind then
      Halt(w.(inKva := false))
    else
      Absorb(q, cfg, view[s.section], w)
  }

  /** A section of the searched type within the horizon: its load is
      compared, and unless one of its IDs is a placeholder its IDs are folded
      in; the walk ends once every attribute is good. */
  ghost function Absorb(q: Search, cfg: Config, e: Entry, w: Walker): (m: Move)
    requires forall k :: 0 <= k < |q.attrs| ==> q.attrs[k] in e.values
    requires Tracks(w, q)
    ensures m.w.cands.Keys == w.cands.Keys
    ensures m.w.depthMax == w.depthMax
    ensures forall a :: a in w.cands && w.cands[a] == CA ==> m.w.cands[a] == CA
    ensures m.w.inKva == InKva(q.refKva, e.dwKva, cfg.kvaDiffMax)
    ensures (exists k :: 0 <= k < |q.attrs| && IsDefault(e.values[q.attrs[k]], cfg.defaults)) ==>
              m.Next? && m.w.cands == w.cands
    ensures (forall k :: 0 <= k < |q.attrs| ==> !IsDefault(e.values[q.attrs[k]], cfg.defaults)) ==>
              m.w.cands == MergeAll(w.cands, e.values, q.attrs) && (m.Halt? <==> AllGood(m.w.cands, q.attrs, m.w.inKva))
  {
    var inKva := InKva(q.refKva, e.dwKva, cfg.kvaDiffMax);
    if exists k :: 0 <= k < |q.attrs| && IsDefault(e.values[q.attrs[k]], cfg.defaults) then
      Next(w.(inKva := inKva))
    else
      var t := MergeAll(w.cands, e.values, q.attrs);
      var w' := Walker(w.depthMax, inKva, t);
      if AllGood(t, q.attrs, inKva) then Halt(w') else Next(w')
  }

  /** The walk over the rest of the traversal. */
  ghost function Walk(view: map<SectionId, Entry>, q: Search, cfg: Config, steps: seq<Step>, w: Walker): (m: Move)
    requires Carries(view, q) && Tracks(w, q)
    ensures m.w.cands.Keys == w.cands.Keys
    decreases |steps|
  {
    if steps == [] then Next(w)
    else
      match Visit(view, q, cfg, steps[0], w)
      case Halt(w') => Halt(w')
      case Next(w') => Walk(view, q, cfg, steps[1..], w')
  }

  /** The walk from position `i` is the visit of step `i` followed, unless
      it ends the walk, by the walk from position `i + 1`. */
  lemma WalkStep(view: map<SectionId, Entry>, q: Search, cfg: Config, steps: seq<Step>, i: nat, w: Walker, m: Move)
    requires Carries(view, q) && Tracks(w, q) && i < |steps|
    requires m == Visit(view, q, cfg, steps[i], w)
    ensures m.Halt? ==> Walk(view, q, cfg, steps[i..], w) == m
    ensures m.Next? ==> Walk(view, q, cfg, steps[i..], w) == Walk(view, q, cfg, steps[i + 1..], m.w)
  {
    assert steps[i..][0] == steps[i] && steps[i..][1..] == steps[i + 1..];
  }

  /** Any attribute with nothing found becomes CA. */
  function Finalize(cands: map<Attr, string>): (r: map<Attr, string>)
    ensures r.Keys == cands.Keys
    ensures forall a :: a in r ==> r[a] != NA
    ensures forall a :: a in r && cands[a] == NA ==> r[a] == CA
    ensures forall a :: a in r && cands[a] != NA ==> r[a] == cands[a]
  {
    map a | a in cands :: if cands[a] == NA then CA else cands[a]
  }

  /** The candidate set and load flag one walk returns. */
  ghost function Candidates(view: map<SectionId, Entry>, q: Search, cfg: Config, steps: seq<Step>)
    : (r: (map<Attr, string>, bool))
    requires Carries(view, q)
    ensures forall a :: a in r.0 <==> a in q.attrs
    ensures forall a :: a in r.0 ==> r.0[a] != NA
  {
    var m := Walk(view, q, cfg, steps, Walker(cfg.depthMax, false, Init(q.attrs)));
    (Finalize(m.w.cands), m.w.inKva)
  }

  /** The fold over the first `j` searched attributes. */
  function FoldPrefix(cands: map<Attr, string>, vals: map<Attr, string>, attrs: seq<Attr>, j: nat, inKva: bool)
    : (r: (map<Attr, string>, nat))
    requires j <= |attrs|
    requires forall a :: a in attrs ==> a in vals && a in cands
    ensures r.0.Keys == cands.Keys
  {
    FoldAttrs(cands, vals, attrs[..j], inKva)
  }

  /** One more attribute folded in: its candidate is merged and the count
      grows when the merged candidate still needs searching. */
  lemma FoldPrefixStep(cands: map<Attr, string>, vals: map<Attr, string>, attrs: seq<Attr>, j: nat, inKva: bool)
    requires j < |attrs|
    requires forall a :: a in attrs ==> a in vals && a in cands
    ensures var prev := FoldPrefix(cands, vals, attrs, j, inKva);
            var t := prev.0[attrs[j] := Merge(prev.0[attrs[j]], vals[attrs[j]])];
            FoldPrefix(cands, vals, attrs, j + 1, inKva) == (t, if Good(t[attrs[j]], inKva) then prev.1 else prev.1 + 1)
  {
    assert attrs[..j + 1][..j] == attrs[..j];
  }

  /** Folds one visited section into a copy of the candidates, attribute by
      attribute. `nextCond` is set, and the copy is to be dropped, as soon as
      one attribute of the section is a placeholder; `badCount` counts the
      attributes that still need searching. */
  method FoldSection(newCond: map<Attr, string>, vals: map<Attr, string>, lineIdNames: seq<Attr>, inKva: bool,
                     defaultCondIds: seq<string>)
    returns (sectConductors: map<Attr, string>, nextCond: bool, badCount: nat)
    requires forall a :: a in lineIdNames ==> a in vals && a in newCond
    ensures nextCond ==> exists k :: 0 <= k < |lineIdNames| && IsDefault(vals[lineIdNames[k]], defaultCondIds)
    ensures !nextCond ==> forall k :: 0 <= k < |lineIdNames| ==> !IsDefault(vals[lineIdNames[k]], defaultCondIds)
    ensures !nextCond ==> sectConductors == MergeAll(newCond, vals, lineIdNames)
    ensures !nextCond ==> (badCount == 0 <==> AllGood(sectConductors, lineIdNames, inKva))
  {
    sectConductors := newCond;
    nextCond := false;
    badCount := 0;
    for j := 0 to |lineIdNames|
      invariant forall k :: 0 <= k < j ==> !IsDefault(vals[lineIdNames[k]], defaultCondIds)
      invariant (sectConductors, badCount) == FoldPrefix(newCond, vals, lineIdNames, j, inKva)
    {
      var name := lineIdNames[j];
      var isDefault := CheckDefaultCond(vals[name], defaultCondIds);
      if !isDefault {
        FoldPrefixStep(newCond, vals, lineIdNames, j, inKva);
        sectConductors := sectConductors[name := Merge(sectConductors[name], vals[name])];
        if !Good(sectConductors[name], inKva) {
          badCount := badCount + 1;
        }
      } else {
        nextCond := true;
        return;
      }
    }
    assert lineIdNames[..|lineIdNames|] == lineIdNames;
    assert FoldPrefix(newCond, vals, lineIdNames, |lineIdNames|, inKva) == FoldAttrs(newCond, vals, lineIdNames, inKva);
    FoldAttrsMerges(newCond, vals, lineIdNames, inKva);
    FoldAttrsCounts(newCond, vals, lineIdNames, inKva);
  }

  /** Walks the traversal `steps` from `oldCond`'s section and returns the
      candidate per attribute and the load flag. */
  method GetCond(oldCond: Device, upDw: Direction, conductorDict: map<SectionId, Device>, lineIdNames: seq<Attr>,
                 depthMax: nat, kvaDiffMax: real, defaultCondIds: seq<string>, steps: seq<Step>)
    returns (newCond: map<Attr, string>, inKva: bool)
    requires Carries(View(conductorDict), Search(oldCond.kind, oldCond.dwKva, oldCond.section, upDw, lineIdNames))
    ensures (newCond, inKva) ==
            Candidates(View(conductorDict), Search(oldCond.kind, oldCond.dwKva, oldCond.section, upDw, lineIdNames),
                       Config(depthMax, kvaDiffMax, defaultCondIds), steps)
  {
    newCond := map a | a in lineIdNames :: NA;
    assert newCond == Init(lineIdNames);
    inKva := false;
    var horizon: int;
    horizon, inKva, newCond :=
      Traverse(oldCond, upDw, conductorDict, lineIdNames, depthMax, kvaDiffMax, defaultCondIds, steps,
               depthMax, inKva, newCond);
    newCond := MarkUnassigned(newCond, lineIdNames);
  }

  /** The search loop of the walk: visits the steps in order until one of
      them ends the walk, starting from the given horizon, load flag and
      candidates. */
  method Traverse(oldCond: Device, upDw: Direction, conductorDict: map<SectionId, Device>, lineIdNames: seq<Attr>,
                  ghost depthMax: nat, kvaDiffMax: real, defaultCondIds: seq<string>, steps: seq<Step>,
                  horizon0: int, inKva0: bool, newCond0: map<Attr, string>)
    returns (horizon: int, inKva: bool, newCond: map<Attr, string>)
    requires Carries(View(conductorDict), Search(oldCond.kind, oldCond.dwKva, oldCond.section, upDw, lineIdNames))
    requires forall a :: a in lineIdNames ==> a in newCond0
    ensures Walk(View(conductorDict), Search(oldCond.kind, oldCond.dwKva, oldCond.section, upDw, lineIdNames),
                 Config(depthMax, kvaDiffMax, defaultCondIds), steps, Walker(horizon0, inKva0, newCond0)).w ==
            Walker(horizon, inKva, newCond)
  {
    ghost var view := View(conductorDict);
    ghost var q := Search(oldCond.kind, oldCond.dwKva, oldCond.section, upDw, lineIdNames);
    ghost var cfg := Config(depthMax, kvaDiffMax, defaultCondIds);
    ghost var w0 := Walker(horizon0, inKva0, newCond0);
    horizon, inKva, newCond := horizon0, inKva0, newCond0;
    var i := 0;
    while i < |steps|
      invariant 0 <= i <= |steps|
      invariant newCond.Keys == newCond0.Keys
      invariant Walk(view, q, cfg, steps, w0) == Walk(view, q, cfg, steps[i..], Walker(horizon, inKva, newCond))
    {
      ghost var w := Walker(horizon, inKva, newCond);
      var stop;
      horizon, inKva, newCond, stop :=
        VisitStep(oldCond, upDw, conductorDict, lineIdNames, depthMax, kvaDiffMax, defaultCondIds, steps[i],
                  horizon, inKva, newCond);
      WalkStep(view, q, cfg, steps, i, w, Visit(view, q, cfg, steps[i], w));
      i := i + 1;
      if stop {
        break;
      }
    }
  }

  /** One pass of the search loop: the iterator's current section `step`,
      with the horizon, load flag and candidates so far. `stop` says the
      loop ends here. */
  method VisitStep(oldCond: Device, upDw: Direction, conductorDict: map<SectionId, Device>, lineIdNames: seq<Attr>,
                   ghost depthMax: nat, kvaDiffMax: real, defaultCondIds: seq<string>, step: Step,
                   horizon: int, inKva: bool, newCond: map<Attr, string>)
    returns (horizon': int, inKva': bool, newCond': map<Attr, string>, stop: bool)
    requires Carries(View(conductorDict), Search(oldCond.kind, oldCond.dwKva, oldCond.section, upDw, lineIdNames))
    requires forall a :: a in lineIdNames ==> a in newCond
    ensures Visit(View(conductorDict), Search(oldCond.kind, oldCond.dwKva, oldCond.section, upDw, lineIdNames),
                  Config(depthMax, kvaDiffMax, defaultCondIds), step, Walker(horizon, inKva, newCond)) ==
            if stop then Halt(Walker(horizon', inKva', newCond')) else Next(Walker(horizon', inKva', newCond'))
  {
    ghost var view := View(conductorDict);
    ghost var q := Search(oldCond.kind, oldCond.dwKva, oldCond.section, upDw, lineIdNames);
    ghost var cfg := Config(depthMax, kvaDiffMax, defaultCondIds);
    ghost var w := Walker(horizon, inKva, newCond);
    horizon', inKva', newCond', stop := horizon, inKva, newCond, false;
    if step.section == oldCond.section {
      horizon' := horizon + 1;
      return;
    }
    if step.depth > horizon {
      stop := upDw == Up;
      return;
    }
    inKva' := false;
    if step.section in conductorDict {
      var cond := conductorDict[step.section];
      assert view[step.section] == Entry(cond.kind, cond.dwKva, cond.values);
      if cond.kind != oldCond.kind {
        stop := true;
        return;
      }
      var sectDwKva := oldCond.dwKva;
      if sectDwKva != 0.0 && Abs(cond.dwKva - sectDwKva) / sectDwKva < kvaDiffMax {
        inKva' := true;
      }
      assert inKva' == InKva(sectDwKva, cond.dwKva, kvaDiffMax);
      assert Visit(view, q, cfg, step, w) == Absorb(q, cfg, view[step.section], w);
      var sectConductors, nextCond, badCount := FoldSection(newCond, cond.values, lineIdNames, inKva', defaultCondIds);
      if nextCond {
        return;
      }
      newCond' := sectConductors;
      stop := badCount == 0;
    }
  }

  /** The closing loop of the search: every attribute with nothing found
      becomes CA. */
  method MarkUnassigned(walked: map<Attr, string>, lineIdNames: seq<Attr>) returns (newCond: map<Attr, string>)
    requires forall a :: a in walked <==> a in lineIdNames
    ensures newCond == Finalize(walked)
  {
    newCond := walked;
    for j := 0 to |lineIdNames|
      invariant newCond.Keys == walked.Keys
      invariant forall k :: 0 <= k < j ==> newCond[lineIdNames[k]] != NA
      invariant forall a :: a in newCond ==> newCond[a] == walked[a] || (walked[a] == NA && newCond[a] == CA)
    {
      if newCond[lineIdNames[j]] == NA {
        newCond := newCond[lineIdNames[j] := CA];
      }
    }
    forall a | a in newCond
      ensures newCond[a] == Finalize(walked)[a]
    {
      var k :| 0 <= k < |lineIdNames| && lineIdNames[k] == a;
    }
  }
}
