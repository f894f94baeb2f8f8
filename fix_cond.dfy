/** The driver of a run: builds the index, works through the three worklists
    (overhead, overhead by phase, underground) and then gives every attribute
    left needing input one more resolution of its own. */
module FixCond {
  import opened Conductors
  import opened DefaultCheck
  import opened ConductorIndex
  import opened CandidateWalk
  import opened Reports
  import opened Resolution
  import opened DriverSpec

  /** Why a run refuses to start. */
  datatype Error = MoreThanOneCircuit | NoCircuitLoaded

  /** A run either refuses to start or ends with the change report and the
      final input-required report. */
  datatype Run = Failed(error: Error) | Done(changed: Report<ChangeRecord>, inputRequired: Report<IrRecord>)

  /** Every indexed device carries the attributes of its category. */
  ghost predicate Complete(idx: map<SectionId, Device>)
    reads idx.Values
  {
    forall s :: s in idx ==> idx[s].Carries()
  }

  /** Every change record names an indexed device whose attribute now holds
      the record's NEW, and NEW is never CA. */
  ghost predicate Consistent(idx: map<SectionId, Device>, changed: Report<ChangeRecord>)
    reads idx.Values
  {
    forall k :: k in changed.entries ==>
      k.section in idx && k.attr in idx[k.section].values &&
      idx[k.section].values[k.attr] == changed.entries[k].newId && changed.entries[k].newId != CA
  }

  /** Every input-required record points at the indexed device of its
      section and at an attribute of that device's category, so that it can
      be resolved again. */
  ghost predicate Filed(idx: map<SectionId, Device>, ir: Report<IrRecord>)
  {
    forall k :: k in ir.entries ==>
      k.section in idx && ir.entries[k].cond == idx[k.section] && k.attr in AttrsOf(idx[k.section].kind)
  }

  /** The bookkeeping a pass keeps: the index is complete, every record sits
      under its key, change records agree with the devices and input-required
      records are filed under indexed devices. */
  ghost predicate Bookkept(idx: map<SectionId, Device>, changed: Report<ChangeRecord>, ir: Report<IrRecord>)
    reads idx.Values
  {
    Complete(idx) && Keyed(changed, ir) && Consistent(idx, changed) && Filed(idx, ir)
  }

  /** A complete index lets a walk of any indexed category search for that
      category's attributes. */
  lemma CompleteCarries(idx: map<SectionId, Device>, d: Device, dir: Direction, attrs: seq<Attr>)
    requires Complete(idx)
    requires forall a :: a in attrs ==> a in AttrsOf(d.kind)
    ensures Carries(View(idx), Search(d.kind, d.dwKva, d.section, dir, attrs))
  {
    var view := View(idx);
    forall s, k | s in view && view[s].kind == d.kind && 0 <= k < |attrs|
      ensures attrs[k] in view[s].values
    {
      assert idx[s].Carries();
      assert attrs[k] in AttrsOf(idx[s].kind);
    }
  }

  /** One call of the resolution on the indexed device `d`, for attributes of
      its category: the index and the reports become what `ResolveAt` says;
      it keeps the index complete, the change records in agreement with the
      devices and the input-required records filed, only adds records, and
      leaves each attribute with a record. */
  method ResolveDevice(idx: map<SectionId, Device>, d: Device, attrs: seq<Attr>,
                       changed: Report<ChangeRecord>, ir: Report<IrRecord>, cfg: Config, net: Traversal)
    returns (changed': Report<ChangeRecord>, ir': Report<IrRecord>)
    requires Sectioned(idx) && Bookkept(idx, changed, ir)
    requires d.section in idx && idx[d.section] == d
    requires forall a :: a in attrs ==> a in AttrsOf(d.kind)
    modifies d
    ensures Bookkept(idx, changed', ir')
    ensures changed.entries.Keys <= changed'.entries.Keys && ir.entries.Keys <= ir'.entries.Keys
    ensures Recorded(d.section, attrs, changed', ir')
    ensures forall k :: k in ir'.entries && k !in ir.entries ==> k.section == d.section && k.attr in attrs
    ensures PassState(View(idx), changed', ir') ==
            ResolveAt(PassState(old(View(idx)), changed, ir), idx, d.section, attrs, cfg, net)
  {
    changed', ir' := ResolveRecords(idx, d, attrs, changed, ir, cfg, net);
    assert d.Carries();
    forall k | k in changed'.entries && k.section != d.section
      ensures k.section in idx && k.attr in idx[k.section].values &&
              idx[k.section].values[k.attr] == changed'.entries[k].newId
    {
      assert k in changed.entries && changed'.entries[k] == changed.entries[k];
    }
  }

  /** The resolution of `d` seen from its records: `LedgerStep` for the
      device as it stands, and `ResolveAt` for the index as a whole. */
  method ResolveRecords(idx: map<SectionId, Device>, d: Device, attrs: seq<Attr>,
                        changed: Report<ChangeRecord>, ir: Report<IrRecord>, cfg: Config, net: Traversal)
    returns (changed': Report<ChangeRecord>, ir': Report<IrRecord>)
    requires Sectioned(idx) && Complete(idx)
    requires d.section in idx && idx[d.section] == d
    requires forall a :: a in attrs ==> a in AttrsOf(d.kind)
    requires Keyed(changed, ir) && Agrees(d.section, d.values, changed) && Filed(idx, ir)
    modifies d
    ensures Keyed(changed', ir') && Agrees(d.section, d.values, changed') && Filed(idx, ir')
    ensures d.values.Keys == old(d.values.Keys)
    ensures changed.entries.Keys <= changed'.entries.Keys && ir.entries.Keys <= ir'.entries.Keys
    ensures Recorded(d.section, attrs, changed', ir')
    ensures forall k :: k in changed'.entries && k.section != d.section ==>
              k in changed.entries && changed'.entries[k] == changed.entries[k]
    ensures forall k :: k in ir'.entries && k !in ir.entries ==> k.section == d.section && k.attr in attrs
    ensures PassState(View(idx), changed', ir') ==
            ResolveAt(PassState(old(View(idx)), changed, ir), idx, d.section, attrs, cfg, net)
  {
    ghost var v0 := View(idx);
    CompleteCarries(idx, d, Up, attrs);
    assert d.Carries();
    ghost var sides := WalkSides(View(idx), d.kind, d.dwKva, d.section, attrs, cfg, net);
    ghost var l := Ledger(d.values, changed, ir);
    changed', ir' :=
      AssignCond(d, attrs, idx, changed, ir, cfg.depthMax, cfg.kvaDiffMax, cfg.defaults, net);
    LedgerStep(idx, l, d.section, attrs, sides, d);
    forall s | s in idx && s != d.section
      ensures v0[s] == Entry(idx[s].kind, idx[s].dwKva, idx[s].values)
    {
      assert idx[s].section == s;
    }
    ViewAfterWrite(idx, d, v0);
  }

  /** Writing into one indexed device changes the index's view in that
      device's section only. */
  lemma ViewAfterWrite(idx: map<SectionId, Device>, d: Device, before: map<SectionId, Entry>)
    requires d.section in idx && idx[d.section] == d && before.Keys == idx.Keys
    requires forall s :: s in idx && s != d.section ==> before[s] == Entry(idx[s].kind, idx[s].dwKva, idx[s].values)
    ensures View(idx) == before[d.section := Entry(d.kind, d.dwKva, d.values)]
  {
  }

  /** What one resolution does to the records, stated for the driver: it
      keeps them keyed, in agreement with the device and filed, only adds
      keys, writes only under the device's section, and leaves every
      resolved attribute with a record. */
  lemma LedgerStep(idx: map<SectionId, Device>, l: Ledger, section: SectionId, attrs: seq<Attr>, sides: Sides,
                   cond: Device)
    requires Covers(l.values, attrs, sides)
    requires section in idx && idx[section] == cond
    requires forall a :: a in attrs ==> a in AttrsOf(cond.kind)
    requires Keyed(l.changed, l.ir) && Agrees(section, l.values, l.changed) && Filed(idx, l.ir)
    ensures var l' := ResolveAll(l, section, attrs, sides, cond);
            Keyed(l'.changed, l'.ir) && Agrees(section, l'.values, l'.changed) && Filed(idx, l'.ir) &&
            l'.values.Keys == l.values.Keys &&
            l.changed.entries.Keys <= l'.changed.entries.Keys && l.ir.entries.Keys <= l'.ir.entries.Keys &&
            Recorded(section, attrs, l'.changed, l'.ir) &&
            (forall k :: k in l'.changed.entries && k.section != section ==>
               k in l.changed.entries && l'.changed.entries[k] == l.changed.entries[k]) &&
            (forall k :: k in l'.ir.entries && k !in l.ir.entries ==> k.section == section && k.attr in attrs)
  {
    var l' := ResolveAll(l, section, attrs, sides, cond);
    ResolveAllKeyed(l, section, attrs, sides, cond);
    ResolveAllLocal(l, section, attrs, sides, cond);
    ResolveAllGrows(l, section, attrs, sides, cond);
    forall k | k in l'.ir.entries
      ensures k.section in idx && l'.ir.entries[k].cond == idx[k.section] && k.attr in AttrsOf(idx[k.section].kind)
    {
      if !(k in l.ir.entries && l'.ir.entries[k] == l.ir.entries[k]) {
        assert k.section == section && k.attr in attrs;
      }
    }
  }

  /** One pass of the driver over a worklist: each device that still holds a
      placeholder in one of `lineId` when its turn comes is resolved. */
  method RunPass(idx: map<SectionId, Device>, ws: seq<Device>, lineId: seq<Attr>,
                 changed: Report<ChangeRecord>, ir: Report<IrRecord>, cfg: Config, net: Traversal)
    returns (changed': Report<ChangeRecord>, ir': Report<IrRecord>)
    requires Sectioned(idx) && Bookkept(idx, changed, ir)
    requires forall d :: d in ws ==> d.section in idx && idx[d.section] == d && AttrsOf(d.kind) == lineId
    modifies ws
    ensures Bookkept(idx, changed', ir')
    ensures changed.entries.Keys <= changed'.entries.Keys && ir.entries.Keys <= ir'.entries.Keys
    ensures forall d :: d in ws && HasDefault(old(View(idx))[d.section].values, lineId, cfg.defaults) ==>
              Recorded(d.section, lineId, changed', ir')
    ensures WellFormed(old(View(idx))) && AllFit(old(View(idx)), idx, Sections(ws), lineId) &&
            PassState(View(idx), changed', ir') ==
            Pass(PassState(old(View(idx)), changed, ir), idx, Sections(ws), lineId, cfg, net)
  {
    ListedFit(idx, ws, lineId);
    changed', ir' := changed, ir;
    ghost var secs := Sections(ws);
    ghost var st0 := PassState(old(View(idx)), changed, ir);
    for i := 0 to |ws|
      invariant Bookkept(idx, changed', ir')
      invariant PassState(View(idx), changed', ir') == Pass(st0, idx, secs[..i], lineId, cfg, net)
    {
      PassPrefix(st0, idx, secs, i, lineId, cfg, net);
      changed', ir' := VisitListed(idx, ws[i], lineId, changed', ir', cfg, net);
    }
    PassWhole(st0, idx, secs, lineId, cfg, net);
    PassGrows(st0, idx, secs, lineId, cfg, net);
    PassRecords(st0, idx, secs, lineId, cfg, net);
    forall d | d in ws && HasDefault(st0.view[d.section].values, lineId, cfg.defaults)
      ensures Recorded(d.section, lineId, changed', ir')
    {
      var j :| 0 <= j < |ws| && ws[j] == d;
      assert secs[j] == d.section;
    }
  }

  /** The sections of a worklist's devices, in order. */
  ghost function Sections(ws: seq<Device>): (secs: seq<SectionId>)
    ensures |secs| == |ws|
    ensures forall j :: 0 <= j < |ws| ==> secs[j] == ws[j].section
  {
    if ws == [] then [] else Sections(ws[..|ws| - 1]) + [ws[|ws| - 1].section]
  }

  /** One worklist entry: the device is resolved when one of `lineId` still
      holds a placeholder, and left alone otherwise. */
  method VisitListed(idx: map<SectionId, Device>, d: Device, lineId: seq<Attr>,
                     changed: Report<ChangeRecord>, ir: Report<IrRecord>, cfg: Config, net: Traversal)
    returns (changed': Report<ChangeRecord>, ir': Report<IrRecord>)
    requires Sectioned(idx) && Bookkept(idx, changed, ir)
    requires d.section in idx && idx[d.section] == d && AttrsOf(d.kind) == lineId
    modifies d
    ensures Bookkept(idx, changed', ir')
    ensures changed.entries.Keys <= changed'.entries.Keys && ir.entries.Keys <= ir'.entries.Keys
    ensures Recorded(d.section, lineId, changed', ir') || !old(HasDefault(d.values, lineId, cfg.defaults))
    ensures !old(HasDefault(d.values, lineId, cfg.defaults)) ==> changed' == changed && ir' == ir && unchanged(d)
    ensures PassState(View(idx), changed', ir') ==
            VisitEntry(PassState(old(View(idx)), changed, ir), idx, d.section, lineId, cfg, net)
  {
    assert d.Carries();
    var isDefault := AnyDefault(d.values, lineId, cfg.defaults);
    if isDefault {
      changed', ir' := ResolveDevice(idx, d, lineId, changed, ir, cfg, net);
    } else {
      changed', ir' := changed, ir;
    }
  }

  /** The refinement: every input-required entry of the passes is resolved
      once more on its own attribute, against the index as the passes left
      it; what still needs input goes into a fresh report. */
  method Refine(idx: map<SectionId, Device>, irDict: Report<IrRecord>, changed: Report<ChangeRecord>, cfg: Config,
                net: Traversal)
    returns (changed': Report<ChangeRecord>, defaults: Report<IrRecord>)
    requires Sectioned(idx) && Complete(idx)
    requires Keyed(changed, irDict) && Consistent(idx, changed) && Filed(idx, irDict)
    modifies idx.Values
    ensures Bookkept(idx, changed', defaults)
    ensures changed.entries.Keys <= changed'.entries.Keys
    ensures forall k :: k in defaults.entries ==> k in irDict.entries
    ensures forall k :: k in irDict.entries ==> k in changed'.entries || k in defaults.entries
    ensures WellFormed(old(View(idx))) &&
            (forall j :: 0 <= j < |irDict.keys| ==>
               Fits(old(View(idx)), idx, irDict.keys[j].section, [irDict.keys[j].attr])) &&
            PassState(View(idx), changed', defaults) ==
            Refinement(PassState(old(View(idx)), changed, Empty()), idx, irDict.keys, cfg, net)
  {
    changed', defaults := changed, Empty();
    ghost var st0 := PassState(old(View(idx)), changed, Empty());
    FiledFits(idx, irDict);
    for i := 0 to |irDict.keys|
      invariant Bookkept(idx, changed', defaults)
      invariant PassState(View(idx), changed', defaults) == Refinement(st0, idx, irDict.keys[..i], cfg, net)
    {
      var k := irDict.keys[i];
      RefinementPrefix(st0, idx, irDict.keys, i, cfg, net);
      changed', defaults := RefineEntry(idx, k, irDict.entries[k], changed', defaults, cfg, net);
    }
    RefinementWhole(st0, idx, irDict.keys, cfg, net);
    RefinementFiles(st0, idx, irDict.keys, cfg, net);
    RefinementSettles(st0, idx, irDict.keys, cfg, net);
  }

  /** The keys of a filed input-required report name indexed sections and
      attributes of their categories. */
  lemma FiledFits(idx: map<SectionId, Device>, irDict: Report<IrRecord>)
    requires irDict.Valid() && Filed(idx, irDict)
    ensures forall j :: 0 <= j < |irDict.keys| ==>
              Fits(View(idx), idx, irDict.keys[j].section, [irDict.keys[j].attr])
  {
    forall j | 0 <= j < |irDict.keys| ensures Fits(View(idx), idx, irDict.keys[j].section, [irDict.keys[j].attr]) {
      assert irDict.keys[j] in irDict.entries;
    }
  }

  /** One entry of the refinement: the device of the input-required record
      `rec`, filed under `k`, is resolved again for that one attribute. */
  method RefineEntry(idx: map<SectionId, Device>, k: Key, rec: IrRecord, changed: Report<ChangeRecord>,
                     defaults: Report<IrRecord>, cfg: Config, net: Traversal)
    returns (changed': Report<ChangeRecord>, defaults': Report<IrRecord>)
    requires Sectioned(idx) && Bookkept(idx, changed, defaults)
    requires k.section in idx && rec.cond == idx[k.section] && rec.attr == k.attr && k.attr in AttrsOf(rec.cond.kind)
    modifies rec.cond
    ensures Bookkept(idx, changed', defaults')
    ensures changed.entries.Keys <= changed'.entries.Keys && defaults.entries.Keys <= defaults'.entries.Keys
    ensures k in changed'.entries || k in defaults'.entries
    ensures forall x :: x in defaults'.entries ==> x in defaults.entries || x == k
    ensures PassState(View(idx), changed', defaults') ==
            ResolveAt(PassState(old(View(idx)), changed, defaults), idx, k.section, [k.attr], cfg, net)
  {
    changed', defaults' := ResolveDevice(idx, rec.cond, [k.attr], changed, defaults, cfg, net);
    KeyOnly(k, rec.cond.section, changed', defaults, defaults');
  }

  /** The three worklists (overhead with unbalanced, by phase, underground),
      run from the entries `start`, give the first-pass input-required
      report `firstPass` and the final state `outcome`. */
  ghost predicate RanFrom(start: map<SectionId, Entry>, idx: map<SectionId, Device>,
                          lists: (seq<Device>, seq<Device>, seq<Device>), net: Traversal,
                          firstPass: Report<IrRecord>, outcome: PassState)
  {
    var (ohS, phaseS, ugS) := (Sections(lists.0), Sections(lists.1), Sections(lists.2));
    Runnable(start, idx, ohS, phaseS, ugS) &&
    firstPass == AllPasses(start, idx, ohS, phaseS, ugS, net).ir &&
    outcome == RunOutcome(start, idx, ohS, phaseS, ugS, net)
  }

  /** The whole run over the devices of the loaded circuit: the index build,
      then the passes and the refinement. `start` names the entries the
      indexed devices hold on entry; `index` and `worklists` are what the
      index build produced, `firstPass` the input-required report of the
      passes. The passes and the refinement run from `start` (`RanFrom`). */
  method FixCond(networks: seq<string>, oh: seq<Device>, ohPhase: seq<Device>, ohUnbalanced: seq<Device>,
                 ug: seq<Device>, net: Traversal, ghost start: map<SectionId, Entry>)
    returns (r: Run, ghost index: map<SectionId, Device>, ghost worklists: (seq<Device>, seq<Device>, seq<Device>),
             ghost firstPass: Report<IrRecord>)
    requires OfKind(oh, OverheadLine) && OfKind(ohPhase, OverheadByPhase)
    requires OfKind(ohUnbalanced, OverheadLineUnbalanced) && OfKind(ug, Underground)
    requires start == IndexView(oh, ohPhase, ohUnbalanced, ug)
    modifies oh, ohPhase, ohUnbalanced, ug
    ensures |networks| > 1 ==> r == Failed(MoreThanOneCircuit)
    ensures |networks| == 0 ==> r == Failed(NoCircuitLoaded)
    ensures |networks| == 1 <==> r.Done?
    ensures r.Done? ==> index == Register(map[], oh + ohPhase + ohUnbalanced + ug)
    ensures r.Done? ==>
              worklists == old((Pending(map[], oh, RunConfig.defaults) +
                                Pending(Register(map[], oh + ohPhase), ohUnbalanced, RunConfig.defaults),
                                Pending(Register(map[], oh), ohPhase, RunConfig.defaults),
                                Pending(Register(map[], oh + ohPhase + ohUnbalanced), ug, RunConfig.defaults)))
    ensures r.Done? ==> Keyed(r.changed, r.inputRequired) && Consistent(index, r.changed) && Filed(index, r.inputRequired)
    ensures r.Done? ==> forall k :: k in r.inputRequired.entries ==> k in firstPass.entries
    ensures r.Done? ==> forall k :: k in firstPass.entries ==> k in r.changed.entries || k in r.inputRequired.entries
    ensures r.Done? ==>
              forall d :: d in worklists.0 || d in worklists.1 || d in worklists.2 ==>
                Recorded(d.section, AttrsOf(d.kind), r.changed, firstPass) &&
                Recorded(d.section, AttrsOf(d.kind), r.changed, r.inputRequired)
    ensures r.Done? ==>
              RanFrom(start, index, worklists, net, firstPass, PassState(View(index), r.changed, r.inputRequired))
  {
    if |networks| > 1 {
      return Failed(MoreThanOneCircuit), map[], ([], [], []), Empty();
    } else if |networks| == 0 {
      return Failed(NoCircuitLoaded), map[], ([], [], []), Empty();
    }
    var idx, ohList, ohPhaseList, ugList := GetConductors(oh, ohPhase, ohUnbalanced, ug, RunConfig.defaults, start);
    IndexFromDevices(oh, ohPhase, ohUnbalanced, ug, idx);
    WorklistShapes(oh, ohPhase, ohUnbalanced, ug, RunConfig.defaults, ohList, ohPhaseList, ugList);
    index, worklists := idx, (ohList, ohPhaseList, ugList);
    assert View(idx) == start;
    var changed, inputRequired;
    changed, inputRequired, firstPass := RunPasses(idx, ohList, ohPhaseList, ugList, net);
    r := Done(changed, inputRequired);
  }

  /** The three passes over the worklists (overhead, by phase, underground),
      then the refinement of what they left needing input. */
  method RunPasses(idx: map<SectionId, Device>, ohList: seq<Device>, ohPhaseList: seq<Device>, ugList: seq<Device>,
                   net: Traversal)
    returns (changed: Report<ChangeRecord>, final: Report<IrRecord>, ghost firstPass: Report<IrRecord>)
    requires Sectioned(idx) && Complete(idx)
    requires forall d :: d in ohList ==> Listed(idx, d, RunConfig.defaults) && AttrsOf(d.kind) == [LineID]
    requires forall d :: d in ohPhaseList ==> Listed(idx, d, RunConfig.defaults) && d.kind == OverheadByPhase
    requires forall d :: d in ugList ==> Listed(idx, d, RunConfig.defaults) && d.kind == Underground
    modifies idx.Values
    ensures Keyed(changed, final) && Consistent(idx, changed) && Filed(idx, final)
    ensures forall k :: k in final.entries ==> k in firstPass.entries
    ensures forall k :: k in firstPass.entries ==> k in changed.entries || k in final.entries
    ensures forall d :: d in ohList || d in ohPhaseList || d in ugList ==>
              Recorded(d.section, AttrsOf(d.kind), changed, firstPass) &&
              Recorded(d.section, AttrsOf(d.kind), changed, final)
    ensures Runnable(old(View(idx)), idx, Sections(ohList), Sections(ohPhaseList), Sections(ugList)) &&
            firstPass ==
            AllPasses(old(View(idx)), idx, Sections(ohList), Sections(ohPhaseList), Sections(ugList), net).ir &&
            PassState(View(idx), changed, final) ==
            RunOutcome(old(View(idx)), idx, Sections(ohList), Sections(ohPhaseList), Sections(ugList), net)
  {
    var ir;
    changed, ir := Passes(idx, ohList, ohPhaseList, ugList, net);
    firstPass := ir;
    ghost var c := changed;
    changed, final := Refine(idx, ir, changed, RunConfig, net);
    RefinedRecorded(ohList + ohPhaseList + ugList, c, firstPass, changed, final);
  }

  /** The three passes: every device of the worklists ends with a record per
      attribute of its category. */
  method Passes(idx: map<SectionId, Device>, ohList: seq<Device>, ohPhaseList: seq<Device>, ugList: seq<Device>,
                net: Traversal)
    returns (changed: Report<ChangeRecord>, ir: Report<IrRecord>)
    requires Sectioned(idx) && Complete(idx)
    requires forall d :: d in ohList ==> Listed(idx, d, RunConfig.defaults) && AttrsOf(d.kind) == [LineID]
    requires forall d :: d in ohPhaseList ==> Listed(idx, d, RunConfig.defaults) && d.kind == OverheadByPhase
    requires forall d :: d in ugList ==> Listed(idx, d, RunConfig.defaults) && d.kind == Underground
    modifies idx.Values
    ensures Bookkept(idx, changed, ir)
    ensures forall d :: d in ohList + ohPhaseList + ugList ==> Recorded(d.section, AttrsOf(d.kind), changed, ir)
    ensures Runnable(old(View(idx)), idx, Sections(ohList), Sections(ohPhaseList), Sections(ugList)) &&
            PassState(View(idx), changed, ir) ==
            AllPasses(old(View(idx)), idx, Sections(ohList), Sections(ohPhaseList), Sections(ugList), net)
  {
    ghost var st0 := PassState(View(idx), Empty(), Empty());
    ListedHolds(idx, ohList, [LineID]);
    ListedHolds(idx, ohPhaseList, AttrsOf(OverheadByPhase));
    ListedHolds(idx, ugList, [CableID]);
    changed, ir := RunPass(idx, ohList, [LineID], Empty(), Empty(), RunConfig, net);
    forall k: DeviceType { AttrsApart(k); }
    PassLeaves(st0, idx, Sections(ohList), [LineID], Sections(ohPhaseList), AttrsOf(OverheadByPhase), RunConfig, net);
    PassLeaves(st0, idx, Sections(ohList), [LineID], Sections(ugList), [CableID], RunConfig, net);
    DueListed(idx, ohPhaseList, AttrsOf(OverheadByPhase));
    DueListed(idx, ugList, [CableID]);
    changed, ir := LaterPasses(idx, ohPhaseList, ugList, changed, ir, net);
    AllRecords(st0.view, idx, Sections(ohList), Sections(ohPhaseList), Sections(ugList), net);
    ListedRecorded(ohList, [LineID], st0.view, changed, ir);
    RecordedJoin(ohList, ohPhaseList + ugList, changed, ir);
  }

  /** The passes by phase and underground, after the overhead pass. */
  method LaterPasses(idx: map<SectionId, Device>, ohPhaseList: seq<Device>, ugList: seq<Device>,
                     changed: Report<ChangeRecord>, ir: Report<IrRecord>, net: Traversal)
    returns (changed': Report<ChangeRecord>, ir': Report<IrRecord>)
    requires Sectioned(idx) && Bookkept(idx, changed, ir)
    requires forall d :: d in ohPhaseList ==> Listed(idx, d, RunConfig.defaults) && d.kind == OverheadByPhase
    requires forall d :: d in ugList ==> Listed(idx, d, RunConfig.defaults) && d.kind == Underground
    modifies idx.Values
    ensures Bookkept(idx, changed', ir')
    ensures changed.entries.Keys <= changed'.entries.Keys && ir.entries.Keys <= ir'.entries.Keys
    ensures forall d :: d in ohPhaseList + ugList ==> Recorded(d.section, AttrsOf(d.kind), changed', ir')
    ensures WellFormed(old(View(idx))) && AllFit(old(View(idx)), idx, Sections(ohPhaseList), AttrsOf(OverheadByPhase)) &&
            AllFit(old(View(idx)), idx, Sections(ugList), [CableID]) &&
            PassState(View(idx), changed', ir') ==
            PhaseAndUndergroundPasses(PassState(old(View(idx)), changed, ir), idx, Sections(ohPhaseList),
                                      Sections(ugList), net)
  {
    ghost var st0 := PassState(View(idx), changed, ir);
    ListedHolds(idx, ohPhaseList, AttrsOf(OverheadByPhase));
    ListedHolds(idx, ugList, [CableID]);
    changed', ir' := RunPass(idx, ohPhaseList, AttrsOf(OverheadByPhase), changed, ir, RunConfig, net);
    changed', ir' := RunPass(idx, ugList, [CableID], changed', ir', RunConfig, net);
    LaterRecords(st0, idx, Sections(ohPhaseList), Sections(ugList), net);
    LaterListed(st0.view, ohPhaseList, ugList, changed', ir');
  }

  /** The later passes' records, per device: each device of the by-phase
      and underground worklists ends them with a record per attribute of its
      category, when each held a placeholder as they started and the passes
      recorded every section that did. */
  lemma LaterListed(view: map<SectionId, Entry>, ohPhaseList: seq<Device>, ugList: seq<Device>,
                    changed: Report<ChangeRecord>, ir: Report<IrRecord>)
    requires forall d :: d in ohPhaseList ==> d.kind == OverheadByPhase
    requires forall d :: d in ugList ==> d.kind == Underground
    requires AllDue(view, Sections(ohPhaseList), AttrsOf(OverheadByPhase)) && AllDue(view, Sections(ugList), [CableID])
    requires RecordedWhereDue(view, Sections(ohPhaseList), AttrsOf(OverheadByPhase), changed, ir)
    requires RecordedWhereDue(view, Sections(ugList), [CableID], changed, ir)
    ensures forall d :: d in ohPhaseList + ugList ==> Recorded(d.section, AttrsOf(d.kind), changed, ir)
  {
    ListedRecorded(ohPhaseList, AttrsOf(OverheadByPhase), view, changed, ir);
    ListedRecorded(ugList, [CableID], view, changed, ir);
    RecordedJoin(ohPhaseList, ugList, changed, ir);
  }

  /** A worklist of listed devices read off the index's entries: each device
      is indexed, its section fits `attrs`, and its entry holds a
      placeholder in one of them. */
  lemma ListedHolds(idx: map<SectionId, Device>, ws: seq<Device>, attrs: seq<Attr>)
    requires forall d :: d in ws ==> Listed(idx, d, RunConfig.defaults) && AttrsOf(d.kind) == attrs
    ensures forall d :: d in ws ==> d in idx.Values
    ensures AllFit(View(idx), idx, Sections(ws), attrs)
    ensures AllDue(View(idx), Sections(ws), attrs)
  {
    ListedFit(idx, ws, attrs);
    forall d | d in ws ensures d in idx.Values {
      assert idx[d.section] == d;
    }
    var secs := Sections(ws);
    forall j | 0 <= j < |secs| ensures secs[j] in View(idx) && HasDefault(View(idx)[secs[j]].values, attrs, RunConfig.defaults) {
      assert ws[j] in ws;
    }
  }

  /** Indexed devices whose entries hold a placeholder are listed. */
  lemma DueListed(idx: map<SectionId, Device>, ws: seq<Device>, attrs: seq<Attr>)
    requires forall d :: d in ws ==> d.section in idx && idx[d.section] == d && AttrsOf(d.kind) == attrs
    requires AllDue(View(idx), Sections(ws), attrs)
    ensures forall d :: d in ws ==> Listed(idx, d, RunConfig.defaults)
  {
    forall d | d in ws ensures Listed(idx, d, RunConfig.defaults) {
      var j :| 0 <= j < |ws| && ws[j] == d;
      assert Sections(ws)[j] == d.section;
    }
  }

  /** Records stated per position of a worklist, read back per device. */
  lemma ListedRecorded(ws: seq<Device>, attrs: seq<Attr>, view: map<SectionId, Entry>, changed: Report<ChangeRecord>,
                       ir: Report<IrRecord>)
    requires forall d :: d in ws ==> AttrsOf(d.kind) == attrs
    requires AllDue(view, Sections(ws), attrs) && RecordedWhereDue(view, Sections(ws), attrs, changed, ir)
    ensures forall d :: d in ws ==> Recorded(d.section, AttrsOf(d.kind), changed, ir)
  {
    forall d | d in ws ensures Recorded(d.section, AttrsOf(d.kind), changed, ir) {
      var j :| 0 <= j < |ws| && ws[j] == d;
      assert Sections(ws)[j] == d.section;
    }
  }

  /** The sections of a worklist of indexed devices fit the attributes of
      their pass. */
  lemma ListedFit(idx: map<SectionId, Device>, ws: seq<Device>, attrs: seq<Attr>)
    requires forall d :: d in ws ==> d.section in idx && idx[d.section] == d
    requires forall d, a :: d in ws && a in attrs ==> a in AttrsOf(d.kind)
    ensures AllFit(View(idx), idx, Sections(ws), attrs)
  {
    var secs := Sections(ws);
    forall j | 0 <= j < |secs| ensures Fits(View(idx), idx, secs[j], attrs) {
      assert ws[j] in ws;
    }
  }

  /** A resolution of one attribute of `k`'s section that files nothing
      but that attribute settles exactly `k`. */
  lemma KeyOnly(k: Key, section: SectionId, changed: Report<ChangeRecord>, ir: Report<IrRecord>,
                ir': Report<IrRecord>)
    requires section == k.section
    requires Recorded(section, [k.attr], changed, ir')
    requires forall x :: x in ir'.entries && x !in ir.entries ==> x.section == section && x.attr in [k.attr]
    ensures k in changed.entries || k in ir'.entries
    ensures forall x :: x in ir'.entries ==> x in ir.entries || x == k
  {
    assert k.attr in [k.attr];
  }

  /** The records of two worklists, together. */
  lemma RecordedJoin(ws: seq<Device>, ws': seq<Device>, changed: Report<ChangeRecord>, ir: Report<IrRecord>)
    requires forall d :: d in ws ==> Recorded(d.section, AttrsOf(d.kind), changed, ir)
    requires forall d :: d in ws' ==> Recorded(d.section, AttrsOf(d.kind), changed, ir)
    ensures forall d :: d in ws + ws' ==> Recorded(d.section, AttrsOf(d.kind), changed, ir)
  {
  }

  /** After the refinement every attribute recorded by the passes has a
      change record or a record in the final input-required report. */
  lemma RefinedRecorded(ws: seq<Device>, c: Report<ChangeRecord>, firstPass: Report<IrRecord>,
                        changed: Report<ChangeRecord>, final: Report<IrRecord>)
    requires forall d :: d in ws ==> Recorded(d.section, AttrsOf(d.kind), c, firstPass)
    requires c.entries.Keys <= changed.entries.Keys
    requires forall k :: k in firstPass.entries ==> k in changed.entries || k in final.entries
    ensures forall d :: d in ws ==>
              Recorded(d.section, AttrsOf(d.kind), changed, firstPass) && Recorded(d.section, AttrsOf(d.kind), changed, final)
  {
  }

  /** What the driver needs of the index build: the index files each device
      under its own section, and every indexed device carries its category's
      attributes and is one of the scanned devices. */
  lemma IndexFromDevices(oh: seq<Device>, ohPhase: seq<Device>, ohUnbalanced: seq<Device>, ug: seq<Device>,
                         idx: map<SectionId, Device>)
    requires OfKind(oh, OverheadLine) && OfKind(ohPhase, OverheadByPhase)
    requires OfKind(ohUnbalanced, OverheadLineUnbalanced) && OfKind(ug, Underground)
    requires idx == Register(map[], oh + ohPhase + ohUnbalanced + ug)
    ensures Sectioned(idx) && Complete(idx)
    ensures forall d :: d in idx.Values ==> d in oh || d in ohPhase || d in ohUnbalanced || d in ug
  {
    var all := oh + ohPhase + ohUnbalanced + ug;
    RegisterSectioned(map[], all);
    forall d | d in idx.Values ensures d.Carries() && (d in oh || d in ohPhase || d in ohUnbalanced || d in ug) {
      assert d in all;
      var i :| 0 <= i < |all| && all[i] == d;
      if i < |oh| {
        assert all[i] == oh[i];
      } else if i < |oh| + |ohPhase| {
        assert all[i] == ohPhase[i - |oh|];
      } else if i < |oh| + |ohPhase| + |ohUnbalanced| {
        assert all[i] == ohUnbalanced[i - |oh| - |ohPhase|];
      } else {
        assert all[i] == ug[i - |oh| - |ohPhase| - |ohUnbalanced|];
      }
    }
  }

  /** What the driver needs of the worklists besides the scan's own
      guarantee: each holds devices of the categories its pass resolves. */
  lemma WorklistShapes(oh: seq<Device>, ohPhase: seq<Device>, ohUnbalanced: seq<Device>, ug: seq<Device>,
                       defaults: seq<string>, ohList: seq<Device>, ohPhaseList: seq<Device>, ugList: seq<Device>)
    requires OfKind(oh, OverheadLine) && OfKind(ohPhase, OverheadByPhase)
    requires OfKind(ohUnbalanced, OverheadLineUnbalanced) && OfKind(ug, Underground)
    requires ohList == Pending(map[], oh, defaults) + Pending(Register(map[], oh + ohPhase), ohUnbalanced, defaults)
    requires ohPhaseList == Pending(Register(map[], oh), ohPhase, defaults)
    requires ugList == Pending(Register(map[], oh + ohPhase + ohUnbalanced), ug, defaults)
    ensures forall d :: d in ohList ==> AttrsOf(d.kind) == [LineID]
    ensures forall d :: d in ohPhaseList ==> d.kind == OverheadByPhase
    ensures forall d :: d in ugList ==> d.kind == Underground
  {
    PendingShape(map[], oh, OverheadLine, defaults);
    PendingShape(Register(map[], oh), ohPhase, OverheadByPhase, defaults);
    PendingShape(Register(map[], oh + ohPhase), ohUnbalanced, OverheadLineUnbalanced, defaults);
    PendingShape(Register(map[], oh + ohPhase + ohUnbalanced), ug, Underground, defaults);
  }

  /** A scan of devices of one category lists devices of that category with
      a placeholder among its attributes. */
  lemma PendingShape(idx: map<SectionId, Device>, ds: seq<Device>, kind: DeviceType, defaults: seq<string>)
    requires OfKind(ds, kind)
    ensures forall d :: d in Pending(idx, ds, defaults) ==>
              d.kind == kind && HasDefault(d.values, AttrsOf(kind), defaults)
  {
    PendingIndexed(idx, ds, defaults);
    forall d | d in Pending(idx, ds, defaults) ensures d.kind == kind {
      var i :| 0 <= i < |ds| && ds[i] == d;
    }
  }
}
