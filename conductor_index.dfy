/** The index build: one scan over the four device categories that files each
    section under the first device seen on it and collects the devices that
    still carry a placeholder ID. */
module ConductorIndex {
  import opened Conductors
  import opened DefaultCheck

  /** The index after scanning `ds` on top of `idx`: a device is registered
      only when no device is filed under its section yet. */
  function Register(idx: map<SectionId, Device>, ds: seq<Device>): (r: map<SectionId, Device>)
    ensures idx.Keys <= r.Keys
    decreases |ds|
  {
    if ds == [] then idx
    else
      var before := Register(idx, ds[..|ds| - 1]);
      var d := ds[|ds| - 1];
      if d.section in before then before else before[d.section := d]
  }

  /** One of `attrs` holds a placeholder in `vals`. */
  predicate HasDefault(vals: map<Attr, string>, attrs: seq<Attr>, defaults: seq<string>)
  {
    exists i :: 0 <= i < |attrs| && attrs[i] in vals && IsDefault(vals[attrs[i]], defaults)
  }

  /** The devices of `ds`, in scan order, that were registered by the scan
      and carry a placeholder in one of their category's attributes. */
  ghost function Pending(idx: map<SectionId, Device>, ds: seq<Device>, defaults: seq<string>): (r: seq<Device>)
    reads ds
    decreases |ds|
  {
    if ds == [] then []
    else
      var n := |ds| - 1;
      var d := ds[n];
      Pending(idx, ds[..n], defaults) +
        (if d.section !in Register(idx, ds[..n]) && HasDefault(d.values, AttrsOf(d.kind), defaults)
         then [d] else [])
  }

  /** Every device of `ds` is of the given category and carries its attributes. */
  predicate OfKind(ds: seq<Device>, kind: DeviceType)
    reads ds
  {
    forall i :: 0 <= i < |ds| ==> ds[i].kind == kind && ds[i].Carries()
  }

  lemma {:induction false} RegisterAppend(idx: map<SectionId, Device>, a: seq<Device>, b: seq<Device>)
    ensures Register(idx, a + b) == Register(Register(idx, a), b)
    decreases |b|
  {
    if b == [] {
      assert a + b == a;
    } else {
      var n := |b| - 1;
      assert (a + b)[..|a + b| - 1] == a + b[..n];
      assert (a + b)[|a + b| - 1] == b[n];
      RegisterAppend(idx, a, b[..n]);
    }
  }

  /** First wins: a section is indexed iff some scanned device sits on it,
      it is filed under the first such device, and what was indexed before
      the scan stays as it was. */
  lemma {:induction false} RegisterFirstWins(idx: map<SectionId, Device>, ds: seq<Device>)
    ensures forall s :: s in Register(idx, ds) <==> s in idx || exists i :: 0 <= i < |ds| && ds[i].section == s
    ensures forall s :: s in idx ==> Register(idx, ds)[s] == idx[s]
    ensures forall i :: (0 <= i < |ds| && ds[i].section !in idx &&
              (forall j :: 0 <= j < i ==> ds[j].section != ds[i].section)) ==>
              Register(idx, ds)[ds[i].section] == ds[i]
    decreases |ds|
  {
    if ds != [] {
      var n := |ds| - 1;
      RegisterFirstWins(idx, ds[..n]);
      var before := Register(idx, ds[..n]);
      forall s | s in Register(idx, ds)
        ensures s in idx || exists i :: 0 <= i < |ds| && ds[i].section == s
      {
        if s !in before {
          assert ds[n].section == s;
        } else if s !in idx {
          var i :| 0 <= i < n && ds[..n][i].section == s;
          PrefixOfPrefix(ds, n, i);
        }
      }
      forall s | s in idx || exists i :: 0 <= i < |ds| && ds[i].section == s
        ensures s in Register(idx, ds)
      {
        if s !in idx && s != ds[n].section {
          var i :| 0 <= i < |ds| && ds[i].section == s;
          assert ds[..n][i].section == s;
        }
      }
      forall i | 0 <= i < |ds| && ds[i].section !in idx &&
          (forall j :: 0 <= j < i ==> ds[j].section != ds[i].section)
        ensures Register(idx, ds)[ds[i].section] == ds[i]
      {
        if i < n {
          assert ds[..n][i] == ds[i];
          assert forall j :: 0 <= j < i ==> ds[..n][j].section != ds[..n][i].section;
        } else {
          forall k | 0 <= k < n ensures ds[..n][k].section != ds[i].section {
            assert ds[..n][k] == ds[k];
          }
        }
      }
    }
  }

  /** The index files every device under its own section, and holds only
      devices that were already indexed or scanned. */
  lemma {:induction false} RegisterSectioned(idx: map<SectionId, Device>, ds: seq<Device>)
    requires Sectioned(idx)
    ensures Sectioned(Register(idx, ds))
    ensures forall s :: s in Register(idx, ds) ==> Register(idx, ds)[s] in idx.Values || Register(idx, ds)[s] in ds
    decreases |ds|
  {
    if ds != [] {
      var n := |ds| - 1;
      RegisterSectioned(idx, ds[..n]);
      forall s | s in Register(idx, ds[..n])
        ensures Register(idx, ds[..n])[s] in idx.Values || Register(idx, ds[..n])[s] in ds
      {
        if Register(idx, ds[..n])[s] !in idx.Values {
          var k :| 0 <= k < n && ds[..n][k] == Register(idx, ds[..n])[s];
          assert ds[k] == Register(idx, ds[..n])[s];
        }
      }
    }
  }

  /** A section, once indexed, keeps its device through later scans. */
  lemma {:induction false} RegisterKeeps(idx: map<SectionId, Device>, ds: seq<Device>, s: SectionId)
    requires s in idx
    ensures s in Register(idx, ds) && Register(idx, ds)[s] == idx[s]
  {
    RegisterFirstWins(idx, ds);
  }

  /** Every listed device was registered by the scan, is the one indexed
      for its section and carries a placeholder. */
  lemma {:induction false} PendingIndexed(idx: map<SectionId, Device>, ds: seq<Device>, defaults: seq<string>)
    ensures forall d :: d in Pending(idx, ds, defaults) ==>
              d in ds && d.section !in idx && d.section in Register(idx, ds) && Register(idx, ds)[d.section] == d &&
              HasDefault(d.values, AttrsOf(d.kind), defaults)
    decreases |ds|
  {
    if ds != [] {
      var n := |ds| - 1;
      var d := ds[n];
      PendingIndexed(idx, ds[..n], defaults);
      RegisterFirstWins(idx, ds[..n]);
      assert Register(Register(idx, ds[..n]), [d]) == Register(idx, ds) by {
        assert ds[..n] + [d] == ds;
        RegisterAppend(idx, ds[..n], [d]);
      }
      forall e | e in Pending(idx, ds[..n], defaults)
        ensures e in ds && e.section in Register(idx, ds) && Register(idx, ds)[e.section] == e
      {
        assert e in ds[..n];
        RegisterKeeps(Register(idx, ds[..n]), [d], e.section);
      }
    }
  }

  /** A device the scan registers is listed whenever it carries a placeholder. */
  lemma {:induction false} PendingComplete(idx: map<SectionId, Device>, ds: seq<Device>, defaults: seq<string>)
    ensures forall i :: (0 <= i < |ds| && ds[i].section !in Register(idx, ds[..i]) &&
              HasDefault(ds[i].values, AttrsOf(ds[i].kind), defaults)) ==> ds[i] in Pending(idx, ds, defaults)
    decreases |ds|
  {
    if ds != [] {
      var n := |ds| - 1;
      PendingComplete(idx, ds[..n], defaults);
      forall i | 0 <= i < |ds| && ds[i].section !in Register(idx, ds[..i]) &&
          HasDefault(ds[i].values, AttrsOf(ds[i].kind), defaults)
        ensures ds[i] in Pending(idx, ds, defaults)
      {
        if i < n {
          PrefixOfPrefix(ds, n, i);
        } else {
          assert ds[..i] == ds[..n];
        }
      }
    }
  }

  /** No two devices of `ds` sit on the same section. */
  predicate DistinctSections(ds: seq<Device>)
  {
    forall i, j :: 0 <= i < j < |ds| ==> ds[i].section != ds[j].section
  }

  /** No section is listed twice by a scan. */
  lemma {:induction false} PendingDistinct(idx: map<SectionId, Device>, ds: seq<Device>, defaults: seq<string>)
    ensures DistinctSections(Pending(idx, ds, defaults))
    decreases |ds|
  {
    if ds != [] {
      var n := |ds| - 1;
      var d := ds[n];
      var before := Register(idx, ds[..n]);
      PendingDistinct(idx, ds[..n], defaults);
      if d.section !in before && HasDefault(d.values, AttrsOf(d.kind), defaults) {
        PendingIndexed(idx, ds[..n], defaults);
        var p0 := Pending(idx, ds[..n], defaults);
        forall e | e in p0 ensures e.section != d.section {
          assert e.section in before;
        }
        var p := Pending(idx, ds, defaults);
        assert p == p0 + [d];
        forall i, j | 0 <= i < j < |p| ensures p[i].section != p[j].section {
          if j == |p| - 1 {
            assert p[i] in p0 && p[j] == d;
          } else {
            assert p[i] == p0[i] && p[j] == p0[j];
          }
        }
      } else {
        assert Pending(idx, ds, defaults) == Pending(idx, ds[..n], defaults);
      }
    }
  }

  /** One of the four scans: index each device not yet indexed and list it
      when one of its category's attributes is a placeholder. */
  method ScanDevices(condDict: map<SectionId, Device>, devices: seq<Device>, condDefaults: seq<string>)
    returns (newDict: map<SectionId, Device>, defaultList: seq<Device>)
    requires forall i :: 0 <= i < |devices| ==> devices[i].Carries()
    ensures newDict == Register(condDict, devices)
    ensures defaultList == Pending(condDict, devices, condDefaults)
  {
    newDict := condDict;
    defaultList := [];
    for i := 0 to |devices|
      invariant newDict == Register(condDict, devices[..i])
      invariant defaultList == Pending(condDict, devices[..i], condDefaults)
    {
      var d := devices[i];
      ScanStep(condDict, devices, i, condDefaults);
      ghost var listed := d.section !in newDict && HasDefault(d.values, AttrsOf(d.kind), condDefaults);
      ghost var next := defaultList + if listed then [d] else [];
      assert next == Pending(condDict, devices[..i + 1], condDefaults);
      if d.section !in newDict {
        newDict := newDict[d.section := d];
        var isDefault := AnyDefault(d.values, AttrsOf(d.kind), condDefaults);
        if isDefault {
          defaultList := defaultList + [d];
        }
      }
    }
    assert devices[..|devices|] == devices;
  }

  /** Scanning one more device: it is indexed and listed exactly when its
      section is not yet indexed. */
  lemma ScanStep(idx: map<SectionId, Device>, ds: seq<Device>, i: nat, defaults: seq<string>)
    requires i < |ds|
    ensures var before := Register(idx, ds[..i]);
            Register(idx, ds[..i + 1]) == if ds[i].section in before then before else before[ds[i].section := ds[i]]
    ensures Pending(idx, ds[..i + 1], defaults) ==
            Pending(idx, ds[..i], defaults) +
              (if ds[i].section !in Register(idx, ds[..i]) && HasDefault(ds[i].values, AttrsOf(ds[i].kind), defaults)
               then [ds[i]] else [])
  {
    PrefixSnoc(ds, i);
  }

  /** The `or` of the placeholder tests over a device's attributes. */
  method AnyDefault(vals: map<Attr, string>, attrs: seq<Attr>, defaults: seq<string>) returns (b: bool)
    requires forall a :: a in attrs ==> a in vals
    ensures b <==> exists i :: 0 <= i < |attrs| && IsDefault(vals[attrs[i]], defaults)
    ensures b == HasDefault(vals, attrs, defaults)
  {
    b := false;
    for i := 0 to |attrs|
      invariant !b
      invariant forall j :: 0 <= j < i ==> !IsDefault(vals[attrs[j]], defaults)
    {
      b := CheckDefaultCond(vals[attrs[i]], defaults);
      if b {
        break;
      }
    }
  }

  /** `d` is the device indexed for its section and carries a placeholder. */
  ghost predicate Listed(idx: map<SectionId, Device>, d: Device, defaults: seq<string>)
    reads d
  {
    d.section in idx && idx[d.section] == d && HasDefault(d.values, AttrsOf(d.kind), defaults)
  }

  /** The entries of the first-wins index of the four device lists, as the
      devices currently stand: `View` of that index, spelt out so that it
      reads only the indexed devices. */
  ghost function IndexView(oh: seq<Device>, ohPhase: seq<Device>, ohUnbalanced: seq<Device>, ug: seq<Device>)
    : (view: map<SectionId, Entry>)
    reads Register(map[], oh + ohPhase + ohUnbalanced + ug).Values
  {
    var idx := Register(map[], oh + ohPhase + ohUnbalanced + ug);
    map s | s in idx :: Entry(idx[s].kind, idx[s].dwKva, idx[s].values)
  }

  /** Device lists left unchanged keep the entries of their index. The four
      lists come as one tuple. */
  twostate lemma IndexViewKept(lists: (seq<Device>, seq<Device>, seq<Device>, seq<Device>))
    requires unchanged(lists.0) && unchanged(lists.1) && unchanged(lists.2) && unchanged(lists.3)
    ensures old(IndexView(lists.0, lists.1, lists.2, lists.3)) == IndexView(lists.0, lists.1, lists.2, lists.3)
  {
    var all := lists.0 + lists.1 + lists.2 + lists.3;
    RegisterSectioned(map[], all);
    forall d | d in Register(map[], all).Values ensures old(d.values) == d.values {
      assert d in all;
    }
  }

  /** The index build over the four categories, scanned in the order
      overhead line, overhead by phase, overhead unbalanced, underground.
      Returns the index, the overhead worklist (overhead line followed by
      overhead unbalanced), the by-phase worklist and the underground one.
      `start` names the entries the indexed devices hold on entry, which the
      scans leave as they are. */
  method GetConductors(oh: seq<Device>, ohPhase: seq<Device>, ohUnbalanced: seq<Device>, ug: seq<Device>,
                       condDefaults: seq<string>, ghost start: map<SectionId, Entry>)
    returns (condDict: map<SectionId, Device>, ohList: seq<Device>, ohPhaseList: seq<Device>, ugList: seq<Device>)
    requires OfKind(oh, OverheadLine) && OfKind(ohPhase, OverheadByPhase)
    requires OfKind(ohUnbalanced, OverheadLineUnbalanced) && OfKind(ug, Underground)
    requires start == IndexView(oh, ohPhase, ohUnbalanced, ug)
    ensures condDict == Register(map[], oh + ohPhase + ohUnbalanced + ug)
    ensures IndexView(oh, ohPhase, ohUnbalanced, ug) == start
    ensures var all := oh + ohPhase + ohUnbalanced + ug;
      forall s :: s in condDict <==> exists i :: 0 <= i < |all| && all[i].section == s
    ensures var all := oh + ohPhase + ohUnbalanced + ug;
      forall i :: (0 <= i < |all| && forall j :: 0 <= j < i ==> all[j].section != all[i].section) ==>
        condDict[all[i].section] == all[i]
    ensures ohList == Pending(map[], oh, condDefaults) +
                      Pending(Register(map[], oh + ohPhase), ohUnbalanced, condDefaults)
    ensures ohPhaseList == Pending(Register(map[], oh), ohPhase, condDefaults)
    ensures ugList == Pending(Register(map[], oh + ohPhase + ohUnbalanced), ug, condDefaults)
    ensures forall d :: d in ohList ==> Listed(condDict, d, condDefaults)
    ensures forall d :: d in ohPhaseList ==> Listed(condDict, d, condDefaults)
    ensures forall d :: d in ugList ==> Listed(condDict, d, condDefaults)
  {
    var ohDefault, ohPhaseDefault, ohUnbalancedDefault, ugDefault;
    condDict, ohDefault := ScanDevices(map[], oh, condDefaults);
    condDict, ohPhaseDefault := ScanDevices(condDict, ohPhase, condDefaults);
    condDict, ohUnbalancedDefault := ScanDevices(condDict, ohUnbalanced, condDefaults);
    condDict, ugDefault := ScanDevices(condDict, ug, condDefaults);
    ohList, ohPhaseList, ugList := ohDefault + ohUnbalancedDefault, ohPhaseDefault, ugDefault;

    ChainedScans(oh, ohPhase, ohUnbalanced, ug);
    IndexViewKept((oh, ohPhase, ohUnbalanced, ug));
    ScansListed(oh, ohPhase, ohUnbalanced, ug, condDefaults);
    RegisterFirstWins(map[], oh + ohPhase + ohUnbalanced + ug);
  }

  /** The four scans chained one after the other build the index of the
      concatenated device lists. */
  lemma ChainedScans(oh: seq<Device>, ohPhase: seq<Device>, ohUnbalanced: seq<Device>, ug: seq<Device>)
    ensures Register(Register(map[], oh), ohPhase) == Register(map[], oh + ohPhase)
    ensures Register(Register(map[], oh + ohPhase), ohUnbalanced) == Register(map[], oh + ohPhase + ohUnbalanced)
    ensures Register(Register(map[], oh + ohPhase + ohUnbalanced), ug) == Register(map[], oh + ohPhase + ohUnbalanced + ug)
  {
    RegisterAppend(map[], oh, ohPhase);
    RegisterAppend(map[], oh + ohPhase, ohUnbalanced);
    RegisterAppend(map[], oh + ohPhase + ohUnbalanced, ug);
  }

  /** Each scan's worklist survives the scans that follow it: its devices
      are the indexed ones in the final index. */
  lemma ScansListed(oh: seq<Device>, ohPhase: seq<Device>, ohUnbalanced: seq<Device>, ug: seq<Device>,
                    defaults: seq<string>)
    ensures var idx := Register(map[], oh + ohPhase + ohUnbalanced + ug);
      (forall d :: d in Pending(map[], oh, defaults) ==> Listed(idx, d, defaults)) &&
      (forall d :: d in Pending(Register(map[], oh), ohPhase, defaults) ==> Listed(idx, d, defaults)) &&
      (forall d :: d in Pending(Register(map[], oh + ohPhase), ohUnbalanced, defaults) ==> Listed(idx, d, defaults)) &&
      (forall d :: d in Pending(Register(map[], oh + ohPhase + ohUnbalanced), ug, defaults) ==> Listed(idx, d, defaults))
  {
    var all := oh + ohPhase + ohUnbalanced + ug;
    var idx := Register(map[], all);
    assert Register(Register(map[], oh), ohPhase + ohUnbalanced + ug) == idx by {
      assert oh + (ohPhase + ohUnbalanced + ug) == all;
      RegisterAppend(map[], oh, ohPhase + ohUnbalanced + ug);
    }
    ListedAreIndexed(map[], oh, ohPhase + ohUnbalanced + ug, defaults, idx);
    assert Register(Register(Register(map[], oh), ohPhase), ohUnbalanced + ug) == idx by {
      assert oh + ohPhase + (ohUnbalanced + ug) == all;
      RegisterAppend(map[], oh, ohPhase);
      RegisterAppend(map[], oh + ohPhase, ohUnbalanced + ug);
    }
    ListedAreIndexed(Register(map[], oh), ohPhase, ohUnbalanced + ug, defaults, idx);
    assert Register(Register(Register(map[], oh + ohPhase), ohUnbalanced), ug) == idx by {
      assert oh + ohPhase + ohUnbalanced + ug == all;
      RegisterAppend(map[], oh + ohPhase, ohUnbalanced);
      RegisterAppend(map[], oh + ohPhase + ohUnbalanced, ug);
    }
    ListedAreIndexed(Register(map[], oh + ohPhase), ohUnbalanced, ug, defaults, idx);
    assert Register(Register(Register(map[], oh + ohPhase + ohUnbalanced), ug), []) == idx by {
      RegisterAppend(map[], oh + ohPhase + ohUnbalanced, ug);
    }
    ListedAreIndexed(Register(map[], oh + ohPhase + ohUnbalanced), ug, [], defaults, idx);
  }

  /** A device listed by one scan is still the indexed one after the scans
      that follow it. */
  lemma ListedAreIndexed(idx: map<SectionId, Device>, ds: seq<Device>, later: seq<Device>, defaults: seq<string>,
                         full: map<SectionId, Device>)
    requires full == Register(Register(idx, ds), later)
    ensures forall d :: d in Pending(idx, ds, defaults) ==> Listed(full, d, defaults)
  {
    PendingIndexed(idx, ds, defaults);
    forall d | d in Pending(idx, ds, defaults)
      ensures d.section in full && full[d.section] == d
    {
      RegisterKeeps(Register(idx, ds), later, d.section);
    }
  }
}
