/** The driver's passes and its refinement stated on values: the index as
    the entries of its sections, and the two reports. Each step is one
    resolution of one section against the entries as they stand, so a fix
    made earlier in a pass is seen by every later walk. */
module DriverSpec {
  import opened Conductors
  import opened ConductorIndex
  import opened CandidateWalk
  import opened Reports
  import opened Resolution

  /** The state the driver works on: every indexed section's entry, the
      change report and the input-required report. */
  datatype PassState = PassState(view: map<SectionId, Entry>, changed: Report<ChangeRecord>, ir: Report<IrRecord>)

  /** `section` is indexed and each of `attrs` is an attribute of its category. */
  ghost predicate Fits(view: map<SectionId, Entry>, idx: map<SectionId, Device>, section: SectionId, attrs: seq<Attr>)
  {
    section in view && section in idx && forall a :: a in attrs ==> a in AttrsOf(view[section].kind)
  }

  /** Every section of `secs` fits `attrs`. */
  ghost predicate AllFit(view: map<SectionId, Entry>, idx: map<SectionId, Device>, secs: seq<SectionId>, attrs: seq<Attr>)
  {
    forall j :: 0 <= j < |secs| ==> Fits(view, idx, secs[j], attrs)
  }

  /** `view'` differs from `view` in IDs only: the same sections, device
      types, loads and attribute names. */
  ghost predicate SameShape(view: map<SectionId, Entry>, view': map<SectionId, Entry>)
  {
    view'.Keys == view.Keys &&
    forall s :: s in view ==>
      view'[s].kind == view[s].kind && view'[s].dwKva == view[s].dwKva && view'[s].values.Keys == view[s].values.Keys
  }

  /** Both reports are duplicate-free, and each key of the input-required
      report names an indexed section and an attribute of its category, so
      that it can be resolved again. */
  ghost predicate Refinable(st: PassState, idx: map<SectionId, Device>)
  {
    st.changed.Valid() && st.ir.Valid() &&
    forall k :: k in st.ir.entries ==> Fits(st.view, idx, k.section, [k.attr])
  }

  /** Each of `attrs` on `section` has a change record or an input-required one. */
  ghost predicate Recorded(section: SectionId, attrs: seq<Attr>, changed: Report<ChangeRecord>, ir: Report<IrRecord>)
  {
    forall a :: a in attrs ==> Key(section, a) in changed.entries || Key(section, a) in ir.entries
  }

  /** Every section of `secs` is an entry of `view` holding a placeholder in
      one of `attrs`. */
  ghost predicate AllDue(view: map<SectionId, Entry>, secs: seq<SectionId>, attrs: seq<Attr>)
  {
    forall j :: 0 <= j < |secs| ==> secs[j] in view && HasDefault(view[secs[j]].values, attrs, RunConfig.defaults)
  }

  /** Each section of `secs` whose entry in `view` held a placeholder in one
      of `attrs` has a record for each of them. */
  ghost predicate RecordedWhereDue(view: map<SectionId, Entry>, secs: seq<SectionId>, attrs: seq<Attr>,
                                   changed: Report<ChangeRecord>, ir: Report<IrRecord>)
  {
    forall j :: 0 <= j < |secs| && secs[j] in view && HasDefault(view[secs[j]].values, attrs, RunConfig.defaults) ==>
      Recorded(secs[j], attrs, changed, ir)
  }

  /** Entries carrying their category's attributes carry whatever a walk of
      that category searches for. */
  lemma WellFormedCarries(view: map<SectionId, Entry>, kind: DeviceType, dwKva: real, section: SectionId,
                          dir: Direction, attrs: seq<Attr>)
    requires WellFormed(view)
    requires forall a :: a in attrs ==> a in AttrsOf(kind)
    ensures Carries(view, Search(kind, dwKva, section, dir, attrs))
  {
    forall s, k | s in view && view[s].kind == kind && 0 <= k < |attrs|
      ensures attrs[k] in view[s].values
    {
      assert attrs[k] in attrs;
    }
  }

  /** The ledger of one call of the resolution on `section` for `attrs`:
      both walks over the entries as they stand, then the rule table. */
  ghost function Resolved(st: PassState, idx: map<SectionId, Device>, section: SectionId, attrs: seq<Attr>,
                          cfg: Config, net: Traversal): (l: Ledger)
    requires WellFormed(st.view) && Fits(st.view, idx, section, attrs)
    ensures l.values.Keys == st.view[section].values.Keys
    ensures st.changed.Valid() && st.ir.Valid() ==> l.changed.Valid() && l.ir.Valid()
    ensures st.changed.entries.Keys <= l.changed.entries.Keys && st.ir.entries.Keys <= l.ir.entries.Keys
    ensures forall k :: k in l.ir.entries ==> k in st.ir.entries || (k.section == section && k.attr in attrs)
    ensures Recorded(section, attrs, l.changed, l.ir)
  {
    var e := st.view[section];
    WellFormedCarries(st.view, e.kind, e.dwKva, section, Up, attrs);
    var sides := WalkSides(st.view, e.kind, e.dwKva, section, attrs, cfg, net);
    var l := Ledger(e.values, st.changed, st.ir);
    ResolveAllLocal(l, section, attrs, sides, idx[section]);
    ResolveAllGrows(l, section, attrs, sides, idx[section]);
    ResolveAll(l, section, attrs, sides, idx[section])
  }

  /** A section that fits keeps fitting once only IDs have changed. */
  lemma FitsKept(view: map<SectionId, Entry>, view': map<SectionId, Entry>, idx: map<SectionId, Device>,
                 section: SectionId, attrs: seq<Attr>)
    requires SameShape(view, view') && Fits(view, idx, section, attrs)
    ensures Fits(view', idx, section, attrs)
  {
  }

  /** One call of the resolution on `section` for `attrs`, with the new IDs
      written back into the section's entry. */
  ghost function ResolveAt(st: PassState, idx: map<SectionId, Device>, section: SectionId, attrs: seq<Attr>,
                           cfg: Config, net: Traversal): (st': PassState)
    requires WellFormed(st.view) && Fits(st.view, idx, section, attrs)
    ensures WellFormed(st'.view) && SameShape(st.view, st'.view)
    ensures Refinable(st, idx) ==> Refinable(st', idx)
    ensures forall s :: s in st.view && s != section ==> st'.view[s] == st.view[s]
    ensures st.changed.entries.Keys <= st'.changed.entries.Keys && st.ir.entries.Keys <= st'.ir.entries.Keys
    ensures forall k :: k in st'.ir.entries ==> k in st.ir.entries || (k.section == section && k.attr in attrs)
    ensures Recorded(section, attrs, st'.changed, st'.ir)
  {
    var e := st.view[section];
    var l := Resolved(st, idx, section, attrs, cfg, net);
    var st' := PassState(st.view[section := Entry(e.kind, e.dwKva, l.values)], l.changed, l.ir);
    assert SameShape(st.view, st'.view);
    if Refinable(st, idx) then
      RefinableKept(st, st', idx, section, attrs);
      st'
    else st'
  }

  /** A resolution of `section` keeps the input-required keys resolvable:
      the old keys still fit once only IDs have changed, and the new ones
      are attributes of the section's category. */
  lemma RefinableKept(st: PassState, st': PassState, idx: map<SectionId, Device>, section: SectionId,
                      attrs: seq<Attr>)
    requires Refinable(st, idx) && SameShape(st.view, st'.view) && Fits(st.view, idx, section, attrs)
    requires st'.changed.Valid() && st'.ir.Valid()
    requires forall k :: k in st'.ir.entries ==> k in st.ir.entries || (k.section == section && k.attr in attrs)
    ensures Refinable(st', idx)
  {
    forall k | k in st'.ir.entries
      ensures Fits(st'.view, idx, k.section, [k.attr])
    {
      if k in st.ir.entries {
        FitsKept(st.view, st'.view, idx, k.section, [k.attr]);
      } else {
        FitsKept(st.view, st'.view, idx, section, attrs);
      }
    }
  }

  /** One worklist entry: the section is resolved when one of `attrs` still
      holds a placeholder when its turn comes, and left alone otherwise. */
  ghost function VisitEntry(st: PassState, idx: map<SectionId, Device>, section: SectionId, attrs: seq<Attr>,
                            cfg: Config, net: Traversal): (st': PassState)
    requires WellFormed(st.view) && Fits(st.view, idx, section, attrs)
    ensures WellFormed(st'.view) && SameShape(st.view, st'.view)
    ensures Refinable(st, idx) ==> Refinable(st', idx)
  {
    if HasDefault(st.view[section].values, attrs, cfg.defaults) then ResolveAt(st, idx, section, attrs, cfg, net)
    else st
  }

  /** One pass over the sections of a worklist, in order. */
  ghost function Pass(st: PassState, idx: map<SectionId, Device>, secs: seq<SectionId>, attrs: seq<Attr>,
                      cfg: Config, net: Traversal): (st': PassState)
    requires WellFormed(st.view) && AllFit(st.view, idx, secs, attrs)
    ensures WellFormed(st'.view) && SameShape(st.view, st'.view)
    ensures Refinable(st, idx) ==> Refinable(st', idx)
    decreases |secs|
  {
    if secs == [] then st
    else
      var n := |secs| - 1;
      var prev := Pass(st, idx, secs[..n], attrs, cfg, net);
      VisitEntry(prev, idx, secs[n], attrs, cfg, net)
  }

  /** The refinement: each key in order is resolved once more on its own
      attribute. */
  ghost function Refinement(st: PassState, idx: map<SectionId, Device>, ks: seq<Key>, cfg: Config, net: Traversal)
    : (st': PassState)
    requires WellFormed(st.view)
    requires forall j :: 0 <= j < |ks| ==> Fits(st.view, idx, ks[j].section, [ks[j].attr])
    ensures WellFormed(st'.view) && SameShape(st.view, st'.view)
    decreases |ks|
  {
    if ks == [] then st
    else
      var n := |ks| - 1;
      var prev := Refinement(st, idx, ks[..n], cfg, net);
      FitsKept(st.view, prev.view, idx, ks[n].section, [ks[n].attr]);
      ResolveAt(prev, idx, ks[n].section, [ks[n].attr], cfg, net)
  }

  /** Every section of `secs` that fits keeps fitting once only IDs have changed. */
  lemma AllFitKept(view: map<SectionId, Entry>, view': map<SectionId, Entry>, idx: map<SectionId, Device>,
                   secs: seq<SectionId>, attrs: seq<Attr>)
    requires SameShape(view, view') && AllFit(view, idx, secs, attrs)
    ensures AllFit(view', idx, secs, attrs)
  {
    forall j | 0 <= j < |secs| ensures Fits(view', idx, secs[j], attrs) {
      FitsKept(view, view', idx, secs[j], attrs);
    }
  }

  /** The index and the three worklists can be run: the entries carry their
      attributes and every listed section fits its pass's attributes. */
  ghost predicate Runnable(view: map<SectionId, Entry>, idx: map<SectionId, Device>, ohSecs: seq<SectionId>,
                           phaseSecs: seq<SectionId>, ugSecs: seq<SectionId>)
  {
    WellFormed(view) && AllFit(view, idx, ohSecs, [LineID]) &&
    AllFit(view, idx, phaseSecs, AttrsOf(OverheadByPhase)) && AllFit(view, idx, ugSecs, [CableID])
  }

  /** The passes by phase and underground, after the overhead pass. */
  ghost function PhaseAndUndergroundPasses(st: PassState, idx: map<SectionId, Device>, phaseSecs: seq<SectionId>,
                             ugSecs: seq<SectionId>, net: Traversal): (st': PassState)
    requires WellFormed(st.view) && AllFit(st.view, idx, phaseSecs, AttrsOf(OverheadByPhase))
    requires AllFit(st.view, idx, ugSecs, [CableID])
    ensures WellFormed(st'.view) && st'.view.Keys == st.view.Keys
    ensures Refinable(st, idx) ==> Refinable(st', idx)
  {
    var p := Pass(st, idx, phaseSecs, AttrsOf(OverheadByPhase), RunConfig, net);
    AllFitKept(st.view, p.view, idx, ugSecs, [CableID]);
    Pass(p, idx, ugSecs, [CableID], RunConfig, net)
  }

  /** The three passes from empty reports: overhead lines on LINEID, by
      phase on its five attributes, underground on CABLEID. */
  ghost function AllPasses(view: map<SectionId, Entry>, idx: map<SectionId, Device>, ohSecs: seq<SectionId>,
                           phaseSecs: seq<SectionId>, ugSecs: seq<SectionId>, net: Traversal): (st': PassState)
    requires Runnable(view, idx, ohSecs, phaseSecs, ugSecs)
    ensures WellFormed(st'.view) && st'.view.Keys == view.Keys && Refinable(st', idx)
  {
    var p := Pass(PassState(view, Empty(), Empty()), idx, ohSecs, [LineID], RunConfig, net);
    AllFitKept(view, p.view, idx, phaseSecs, AttrsOf(OverheadByPhase));
    AllFitKept(view, p.view, idx, ugSecs, [CableID]);
    PhaseAndUndergroundPasses(p, idx, phaseSecs, ugSecs, net)
  }

  /** The input-required keys of a refinable state can be resolved again. */
  lemma RefinableFits(st: PassState, idx: map<SectionId, Device>)
    requires Refinable(st, idx)
    ensures forall j :: 0 <= j < |st.ir.keys| ==> Fits(st.view, idx, st.ir.keys[j].section, [st.ir.keys[j].attr])
  {
    forall j | 0 <= j < |st.ir.keys| ensures Fits(st.view, idx, st.ir.keys[j].section, [st.ir.keys[j].attr]) {
      assert st.ir.keys[j] in st.ir.entries;
    }
  }

  /** A whole run: the three passes, then the refinement of the keys the
      passes left needing input, into a fresh report. */
  ghost function RunOutcome(view: map<SectionId, Entry>, idx: map<SectionId, Device>, ohSecs: seq<SectionId>,
                            phaseSecs: seq<SectionId>, ugSecs: seq<SectionId>, net: Traversal): (st': PassState)
    requires Runnable(view, idx, ohSecs, phaseSecs, ugSecs)
    ensures WellFormed(st'.view) && st'.view.Keys == view.Keys
  {
    var p := AllPasses(view, idx, ohSecs, phaseSecs, ugSecs, net);
    RefinableFits(p, idx);
    Refinement(PassState(p.view, p.changed, Empty()), idx, p.ir.keys, RunConfig, net)
  }

  /** The pass over the first `i + 1` sections is the pass over the first
      `i` followed by the visit of section `i`. */
  lemma PassPrefix(st: PassState, idx: map<SectionId, Device>, secs: seq<SectionId>, i: nat, attrs: seq<Attr>,
                   cfg: Config, net: Traversal)
    requires WellFormed(st.view) && AllFit(st.view, idx, secs, attrs) && i < |secs|
    ensures AllFit(st.view, idx, secs[..i], attrs) && AllFit(st.view, idx, secs[..i + 1], attrs)
    ensures var prev := Pass(st, idx, secs[..i], attrs, cfg, net);
            Fits(prev.view, idx, secs[i], attrs) &&
            Pass(st, idx, secs[..i + 1], attrs, cfg, net) == VisitEntry(prev, idx, secs[i], attrs, cfg, net)
  {
    assert secs[..i + 1][..i] == secs[..i];
    FitsKept(st.view, Pass(st, idx, secs[..i], attrs, cfg, net).view, idx, secs[i], attrs);
  }

  /** The refinement of the first `i + 1` keys is the refinement of the first
      `i` followed by the resolution of key `i`. */
  lemma RefinementPrefix(st: PassState, idx: map<SectionId, Device>, ks: seq<Key>, i: nat, cfg: Config,
                         net: Traversal)
    requires WellFormed(st.view) && i < |ks|
    requires forall j :: 0 <= j < |ks| ==> Fits(st.view, idx, ks[j].section, [ks[j].attr])
    ensures forall j :: 0 <= j < i ==> Fits(st.view, idx, ks[..i][j].section, [ks[..i][j].attr])
    ensures var prev := Refinement(st, idx, ks[..i], cfg, net);
            Fits(prev.view, idx, ks[i].section, [ks[i].attr]) &&
            Refinement(st, idx, ks[..i + 1], cfg, net) == ResolveAt(prev, idx, ks[i].section, [ks[i].attr], cfg, net)
  {
    assert ks[..i + 1][..i] == ks[..i];
    FitsKept(st.view, Refinement(st, idx, ks[..i], cfg, net).view, idx, ks[i].section, [ks[i].attr]);
  }

  /** The pass over every section is the pass over the whole worklist. */
  lemma PassWhole(st: PassState, idx: map<SectionId, Device>, secs: seq<SectionId>, attrs: seq<Attr>, cfg: Config,
                  net: Traversal)
    requires WellFormed(st.view) && AllFit(st.view, idx, secs, attrs)
    ensures Pass(st, idx, secs[..|secs|], attrs, cfg, net) == Pass(st, idx, secs, attrs, cfg, net)
  {
    assert secs[..|secs|] == secs;
  }

  /** The refinement of every key is the refinement of the whole sequence. */
  lemma RefinementWhole(st: PassState, idx: map<SectionId, Device>, ks: seq<Key>, cfg: Config, net: Traversal)
    requires WellFormed(st.view)
    requires forall j :: 0 <= j < |ks| ==> Fits(st.view, idx, ks[j].section, [ks[j].attr])
    ensures Refinement(st, idx, ks[..|ks|], cfg, net) == Refinement(st, idx, ks, cfg, net)
  {
    assert ks[..|ks|] == ks;
  }

  /** A pass touches only the sections on its worklist. */
  lemma {:induction false} PassOutside(st: PassState, idx: map<SectionId, Device>, secs: seq<SectionId>,
                                       attrs: seq<Attr>, cfg: Config, net: Traversal, s: SectionId)
    requires WellFormed(st.view) && AllFit(st.view, idx, secs, attrs)
    requires s in st.view && s !in secs
    ensures Pass(st, idx, secs, attrs, cfg, net).view[s] == st.view[s]
    decreases |secs|
  {
    if secs != [] {
      var n := |secs| - 1;
      FitsKept(st.view, Pass(st, idx, secs[..n], attrs, cfg, net).view, idx, secs[n], attrs);
      PassOutside(st, idx, secs[..n], attrs, cfg, net, s);
    }
  }

  /** A section none of whose `attrs` holds a placeholder when the pass
      starts is never resolved by it: its turns find nothing to fix, and no
      other section's resolution writes into it. */
  lemma {:induction false} PassSkipsClean(st: PassState, idx: map<SectionId, Device>, secs: seq<SectionId>,
                                          attrs: seq<Attr>, cfg: Config, net: Traversal, s: SectionId)
    requires WellFormed(st.view) && AllFit(st.view, idx, secs, attrs)
    requires s in st.view && !HasDefault(st.view[s].values, attrs, cfg.defaults)
    ensures Pass(st, idx, secs, attrs, cfg, net).view[s] == st.view[s]
    decreases |secs|
  {
    if secs != [] {
      var n := |secs| - 1;
      FitsKept(st.view, Pass(st, idx, secs[..n], attrs, cfg, net).view, idx, secs[n], attrs);
      PassSkipsClean(st, idx, secs[..n], attrs, cfg, net, s);
    }
  }

  /** A pass only adds records: no key of either report goes away. */
  lemma {:induction false} PassGrows(st: PassState, idx: map<SectionId, Device>, secs: seq<SectionId>,
                                     attrs: seq<Attr>, cfg: Config, net: Traversal)
    requires WellFormed(st.view) && AllFit(st.view, idx, secs, attrs)
    ensures var st' := Pass(st, idx, secs, attrs, cfg, net);
            st.changed.entries.Keys <= st'.changed.entries.Keys && st.ir.entries.Keys <= st'.ir.entries.Keys
    decreases |secs|
  {
    if secs != [] {
      var n := |secs| - 1;
      FitsKept(st.view, Pass(st, idx, secs[..n], attrs, cfg, net).view, idx, secs[n], attrs);
      PassGrows(st, idx, secs[..n], attrs, cfg, net);
    }
  }

  /** A section whose entry a pass changed was resolved by it, so it has
      its records. */
  lemma {:induction false} PassChangesRecorded(st: PassState, idx: map<SectionId, Device>, secs: seq<SectionId>,
                                               attrs: seq<Attr>, cfg: Config, net: Traversal, s: SectionId)
    requires WellFormed(st.view) && AllFit(st.view, idx, secs, attrs) && s in st.view
    ensures var st' := Pass(st, idx, secs, attrs, cfg, net);
            st'.view[s] != st.view[s] ==> Recorded(s, attrs, st'.changed, st'.ir)
    decreases |secs|
  {
    if secs != [] {
      var n := |secs| - 1;
      var prev := Pass(st, idx, secs[..n], attrs, cfg, net);
      FitsKept(st.view, prev.view, idx, secs[n], attrs);
      PassChangesRecorded(st, idx, secs[..n], attrs, cfg, net, s);
      var st' := Pass(st, idx, secs, attrs, cfg, net);
      assert st' == VisitEntry(prev, idx, secs[n], attrs, cfg, net);
      if st'.view[s] != st.view[s] && prev.view[s] == st.view[s] {
        assert s == secs[n] && HasDefault(prev.view[secs[n]].values, attrs, cfg.defaults);
      }
    }
  }

  /** A visit only adds records, and records the section when it still
      holds a placeholder. */
  lemma VisitRecords(st: PassState, idx: map<SectionId, Device>, section: SectionId, attrs: seq<Attr>, cfg: Config,
                     net: Traversal)
    requires WellFormed(st.view) && Fits(st.view, idx, section, attrs)
    ensures var st' := VisitEntry(st, idx, section, attrs, cfg, net);
            st.changed.entries.Keys <= st'.changed.entries.Keys && st.ir.entries.Keys <= st'.ir.entries.Keys &&
            (HasDefault(st.view[section].values, attrs, cfg.defaults) ==> Recorded(section, attrs, st'.changed, st'.ir))
  {
  }

  /** Every section on the worklist that held a placeholder in one of
      `attrs` when the pass started ends it with a record for each of them:
      either its own turn resolves it, or an earlier turn on the same
      section already did. */
  lemma {:induction false} PassRecords(st: PassState, idx: map<SectionId, Device>, secs: seq<SectionId>,
                                       attrs: seq<Attr>, cfg: Config, net: Traversal)
    requires WellFormed(st.view) && AllFit(st.view, idx, secs, attrs)
    ensures var st' := Pass(st, idx, secs, attrs, cfg, net);
            forall j :: 0 <= j < |secs| && HasDefault(st.view[secs[j]].values, attrs, cfg.defaults) ==>
              Recorded(secs[j], attrs, st'.changed, st'.ir)
    decreases |secs|
  {
    if secs != [] {
      var n := |secs| - 1;
      var prev := Pass(st, idx, secs[..n], attrs, cfg, net);
      FitsKept(st.view, prev.view, idx, secs[n], attrs);
      PassRecords(st, idx, secs[..n], attrs, cfg, net);
      PassChangesRecorded(st, idx, secs[..n], attrs, cfg, net, secs[n]);
      VisitRecords(prev, idx, secs[n], attrs, cfg, net);
      var st' := Pass(st, idx, secs, attrs, cfg, net);
      assert st' == VisitEntry(prev, idx, secs[n], attrs, cfg, net);
      assert secs == secs[..n] + [secs[n]];
      RecordedExtend(st.view, prev.view, secs[..n], secs[n], attrs, cfg.defaults, prev.changed, prev.ir,
                     st'.changed, st'.ir);
    }
  }

  /** One more turn keeps the records of the earlier sections and adds those
      of the new one: the step of `PassRecords`, on values alone. */
  lemma RecordedExtend(view: map<SectionId, Entry>, prevView: map<SectionId, Entry>, secs: seq<SectionId>,
                       s: SectionId, attrs: seq<Attr>, defaults: seq<string>,
                       changed: Report<ChangeRecord>, ir: Report<IrRecord>,
                       changed': Report<ChangeRecord>, ir': Report<IrRecord>)
    requires forall j :: 0 <= j < |secs| ==> secs[j] in view
    requires s in view && s in prevView
    requires forall j :: 0 <= j < |secs| && HasDefault(view[secs[j]].values, attrs, defaults) ==>
               Recorded(secs[j], attrs, changed, ir)
    requires prevView[s] != view[s] ==> Recorded(s, attrs, changed, ir)
    requires changed.entries.Keys <= changed'.entries.Keys && ir.entries.Keys <= ir'.entries.Keys
    requires HasDefault(prevView[s].values, attrs, defaults) ==> Recorded(s, attrs, changed', ir')
    ensures forall j :: 0 <= j < |secs + [s]| && HasDefault(view[(secs + [s])[j]].values, attrs, defaults) ==>
              Recorded((secs + [s])[j], attrs, changed', ir')
  {
    forall j | 0 <= j < |secs + [s]| && HasDefault(view[(secs + [s])[j]].values, attrs, defaults)
      ensures Recorded((secs + [s])[j], attrs, changed', ir')
    {
      if j < |secs| {
        RecordedGrows(secs[j], attrs, changed, ir, changed', ir');
      } else if prevView[s] != view[s] {
        RecordedGrows(s, attrs, changed, ir, changed', ir');
      }
    }
  }

  /** A section whose category lacks the first of a pass's attributes is on
      no worklist of that pass. */
  lemma OffWorklist(view: map<SectionId, Entry>, idx: map<SectionId, Device>, secs: seq<SectionId>,
                    attrs: seq<Attr>, s: SectionId)
    requires AllFit(view, idx, secs, attrs) && |attrs| > 0
    requires s in view && attrs[0] !in AttrsOf(view[s].kind)
    ensures s !in secs
  {
    forall j | 0 <= j < |secs| ensures secs[j] != s {
      assert Fits(view, idx, secs[j], attrs);
    }
  }

  /** A pass leaves every section of a later worklist as it was when no
      category carries the first attributes of both. */
  lemma PassLeaves(st: PassState, idx: map<SectionId, Device>, secs: seq<SectionId>, attrs: seq<Attr>,
                   later: seq<SectionId>, laterAttrs: seq<Attr>, cfg: Config, net: Traversal)
    requires WellFormed(st.view) && AllFit(st.view, idx, secs, attrs) && AllFit(st.view, idx, later, laterAttrs)
    requires |attrs| > 0 && |laterAttrs| > 0
    requires forall k :: laterAttrs[0] in AttrsOf(k) ==> attrs[0] !in AttrsOf(k)
    ensures forall j :: 0 <= j < |later| ==> Pass(st, idx, secs, attrs, cfg, net).view[later[j]] == st.view[later[j]]
    ensures AllDue(st.view, later, laterAttrs) ==> AllDue(Pass(st, idx, secs, attrs, cfg, net).view, later, laterAttrs)
  {
    forall j | 0 <= j < |later| ensures Pass(st, idx, secs, attrs, cfg, net).view[later[j]] == st.view[later[j]] {
      assert Fits(st.view, idx, later[j], laterAttrs) && laterAttrs[0] in laterAttrs;
      OffWorklist(st.view, idx, secs, attrs, later[j]);
      PassOutside(st, idx, secs, attrs, cfg, net, later[j]);
    }
  }

  /** The passes by phase and underground only add records, and leave every
      listed section that held a placeholder when they started with a
      record per attribute of its pass. */
  lemma LaterRecords(st: PassState, idx: map<SectionId, Device>, phaseSecs: seq<SectionId>, ugSecs: seq<SectionId>,
                     net: Traversal)
    requires WellFormed(st.view) && AllFit(st.view, idx, phaseSecs, AttrsOf(OverheadByPhase))
    requires AllFit(st.view, idx, ugSecs, [CableID])
    ensures var st' := PhaseAndUndergroundPasses(st, idx, phaseSecs, ugSecs, net);
            st.changed.entries.Keys <= st'.changed.entries.Keys && st.ir.entries.Keys <= st'.ir.entries.Keys &&
            RecordedWhereDue(st.view, phaseSecs, AttrsOf(OverheadByPhase), st'.changed, st'.ir) &&
            RecordedWhereDue(st.view, ugSecs, [CableID], st'.changed, st'.ir)
  {
    var phase := AttrsOf(OverheadByPhase);
    var p := Pass(st, idx, phaseSecs, phase, RunConfig, net);
    AllFitKept(st.view, p.view, idx, ugSecs, [CableID]);
    var st' := Pass(p, idx, ugSecs, [CableID], RunConfig, net);
    PassGrows(st, idx, phaseSecs, phase, RunConfig, net);
    PassRecords(st, idx, phaseSecs, phase, RunConfig, net);
    PassGrows(p, idx, ugSecs, [CableID], RunConfig, net);
    PassRecords(p, idx, ugSecs, [CableID], RunConfig, net);
    forall k: DeviceType { AttrsApart(k); }
    PassLeaves(st, idx, phaseSecs, phase, ugSecs, [CableID], RunConfig, net);
    forall j | 0 <= j < |phaseSecs| && HasDefault(st.view[phaseSecs[j]].values, phase, RunConfig.defaults)
      ensures Recorded(phaseSecs[j], phase, st'.changed, st'.ir)
    {
      RecordedGrows(phaseSecs[j], phase, p.changed, p.ir, st'.changed, st'.ir);
    }
  }

  /** The three passes leave every listed section that held a placeholder
      at the start with a record per attribute of its pass: the overhead
      pass leaves the sections of the later worklists alone, and the later
      passes only add records. */
  lemma AllRecords(view: map<SectionId, Entry>, idx: map<SectionId, Device>, ohSecs: seq<SectionId>,
                   phaseSecs: seq<SectionId>, ugSecs: seq<SectionId>, net: Traversal)
    requires Runnable(view, idx, ohSecs, phaseSecs, ugSecs)
    ensures var st' := AllPasses(view, idx, ohSecs, phaseSecs, ugSecs, net);
            RecordedWhereDue(view, ohSecs, [LineID], st'.changed, st'.ir) &&
            RecordedWhereDue(view, phaseSecs, AttrsOf(OverheadByPhase), st'.changed, st'.ir) &&
            RecordedWhereDue(view, ugSecs, [CableID], st'.changed, st'.ir)
  {
    var st := PassState(view, Empty(), Empty());
    var p := Pass(st, idx, ohSecs, [LineID], RunConfig, net);
    AllFitKept(view, p.view, idx, phaseSecs, AttrsOf(OverheadByPhase));
    AllFitKept(view, p.view, idx, ugSecs, [CableID]);
    var st' := PhaseAndUndergroundPasses(p, idx, phaseSecs, ugSecs, net);
    PassRecords(st, idx, ohSecs, [LineID], RunConfig, net);
    LaterRecords(p, idx, phaseSecs, ugSecs, net);
    forall k: DeviceType { AttrsApart(k); }
    PassLeaves(st, idx, ohSecs, [LineID], phaseSecs, AttrsOf(OverheadByPhase), RunConfig, net);
    PassLeaves(st, idx, ohSecs, [LineID], ugSecs, [CableID], RunConfig, net);
    forall j | 0 <= j < |ohSecs| && HasDefault(view[ohSecs[j]].values, [LineID], RunConfig.defaults)
      ensures Recorded(ohSecs[j], [LineID], st'.changed, st'.ir)
    {
      RecordedGrows(ohSecs[j], [LineID], p.changed, p.ir, st'.changed, st'.ir);
    }
  }

  /** A record once written stays: keys only accumulate. */
  lemma RecordedGrows(section: SectionId, attrs: seq<Attr>, changed: Report<ChangeRecord>, ir: Report<IrRecord>,
                      changed': Report<ChangeRecord>, ir': Report<IrRecord>)
    requires Recorded(section, attrs, changed, ir)
    requires changed.entries.Keys <= changed'.entries.Keys && ir.entries.Keys <= ir'.entries.Keys
    ensures Recorded(section, attrs, changed', ir')
  {
  }

  /** The refinement files a key as needing input only when it was already
      filed or is one of the keys it resolves. */
  lemma {:induction false} RefinementFiles(st: PassState, idx: map<SectionId, Device>, ks: seq<Key>, cfg: Config,
                                           net: Traversal)
    requires WellFormed(st.view)
    requires forall j :: 0 <= j < |ks| ==> Fits(st.view, idx, ks[j].section, [ks[j].attr])
    ensures forall k :: k in Refinement(st, idx, ks, cfg, net).ir.entries ==> k in st.ir.entries || k in ks
    decreases |ks|
  {
    if ks != [] {
      var n := |ks| - 1;
      FitsKept(st.view, Refinement(st, idx, ks[..n], cfg, net).view, idx, ks[n].section, [ks[n].attr]);
      RefinementFiles(st, idx, ks[..n], cfg, net);
      var prev := Refinement(st, idx, ks[..n], cfg, net);
      forall k | k in Refinement(st, idx, ks, cfg, net).ir.entries ensures k in st.ir.entries || k in ks {
        if k !in prev.ir.entries {
          assert k.section == ks[n].section && k.attr == ks[n].attr;
        } else if k !in st.ir.entries {
          assert k in ks[..n];
        }
      }
    }
  }

  /** Resolving a key on its own attribute leaves it with a record, and
      keeps every earlier one. */
  lemma ResolveKeySettles(st: PassState, idx: map<SectionId, Device>, k: Key, cfg: Config, net: Traversal)
    requires WellFormed(st.view) && Fits(st.view, idx, k.section, [k.attr])
    ensures var st' := ResolveAt(st, idx, k.section, [k.attr], cfg, net);
            (k in st'.changed.entries || k in st'.ir.entries) &&
            st.changed.entries.Keys <= st'.changed.entries.Keys && st.ir.entries.Keys <= st'.ir.entries.Keys
  {
    assert k.attr in [k.attr];
    assert Key(k.section, k.attr) == k;
  }

  /** The refinement only adds records, and leaves every key it resolves
      with a change record or an input-required record. */
  lemma {:induction false} RefinementSettles(st: PassState, idx: map<SectionId, Device>, ks: seq<Key>, cfg: Config,
                                             net: Traversal)
    requires WellFormed(st.view)
    requires forall j :: 0 <= j < |ks| ==> Fits(st.view, idx, ks[j].section, [ks[j].attr])
    ensures var st' := Refinement(st, idx, ks, cfg, net);
            st.changed.entries.Keys <= st'.changed.entries.Keys && st.ir.entries.Keys <= st'.ir.entries.Keys &&
            forall j :: 0 <= j < |ks| ==> ks[j] in st'.changed.entries || ks[j] in st'.ir.entries
    decreases |ks|
  {
    if ks != [] {
      var n := |ks| - 1;
      var prev := Refinement(st, idx, ks[..n], cfg, net);
      FitsKept(st.view, prev.view, idx, ks[n].section, [ks[n].attr]);
      RefinementSettles(st, idx, ks[..n], cfg, net);
      ResolveKeySettles(prev, idx, ks[n], cfg, net);
      var st' := Refinement(st, idx, ks, cfg, net);
      assert st' == ResolveAt(prev, idx, ks[n].section, [ks[n].attr], cfg, net);
      forall j | 0 <= j < |ks| ensures ks[j] in st'.changed.entries || ks[j] in st'.ir.entries {
        if j < n {
          assert ks[..n][j] == ks[j];
          assert ks[j] in prev.changed.entries || ks[j] in prev.ir.entries;
        } else {
          assert j == n;
        }
      }
    }
  }
}
