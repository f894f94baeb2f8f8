/** The resolution policy: the upstream and downstream candidates of one
    device are compared attribute by attribute; each attribute either gets a
    new ID, recorded in the change report and written into the device, or
    is recorded as needing input. */
module Resolution {
  import opened Conductors
  import opened CandidateWalk
  import opened Reports

  /** What the rule table decides for one attribute. */
  datatype Outcome = Change(newId: string) | InputRequired

  /** The rule table over the upstream and downstream candidates and their
      load flags. */
  function Decide(up: string, down: string, upKva: bool, downKva: bool): (o: Outcome)
    ensures o.InputRequired? <==> up == CA && down == CA
    ensures o.Change? ==> o.newId != CA && (o.newId == up || o.newId == down)
    ensures up != CA && down == CA ==> o == Change(up)
    ensures up == CA && down != CA ==> o == Change(down)
    ensures up != CA && down != CA && up != down ==> (o == Change(up) <==> upKva && !downKva)
  {
    if up != CA && down == CA then Change(up)
    else if up == CA && down != CA then Change(down)
    else if up == CA && down == CA then InputRequired
    else if up == down then Change(down)
    else if upKva && !downKva then Change(up)
    else if !upKva && downKva then Change(down)
    else Change(down)
  }

  /** The device's ID attributes and the two reports, as resolution goes. */
  datatype Ledger = Ledger(values: map<Attr, string>, changed: Report<ChangeRecord>, ir: Report<IrRecord>)

  /** The candidates of both walks and their load flags. */
  datatype Sides = Sides(up: map<Attr, string>, down: map<Attr, string>, upKva: bool, downKva: bool)

  /** Resolving one attribute `a` of the device `cond` on `section`. */
  function ResolveAttr(l: Ledger, section: SectionId, a: Attr, sides: Sides, cond: Device): (l': Ledger)
    requires a in l.values && a in sides.up && a in sides.down
    ensures l'.values.Keys == l.values.Keys
    ensures l.changed.entries.Keys <= l'.changed.entries.Keys && l.ir.entries.Keys <= l'.ir.entries.Keys
    ensures Key(section, a) in l'.changed.entries || Key(section, a) in l'.ir.entries
    ensures l.changed.Valid() && l.ir.Valid() ==> l'.changed.Valid() && l'.ir.Valid()
  {
    match Decide(sides.up[a], sides.down[a], sides.upKva, sides.downKva)
    case Change(n) =>
      Ledger(l.values[a := n], l.changed.Put(Key(section, a), ChangeRecord(section, l.values[a], n, a)), l.ir)
    case InputRequired =>
      Ledger(l.values, l.changed, l.ir.Put(Key(section, a), IrRecord(section, sides.up[a], sides.down[a], a, cond)))
  }

  /** Both walks cover every attribute to resolve, which the device carries. */
  predicate Covers(values: map<Attr, string>, attrs: seq<Attr>, sides: Sides)
  {
    forall a :: a in attrs ==> a in values && a in sides.up && a in sides.down
  }

  /** Resolving the attributes `attrs` in order. */
  function ResolveAll(l: Ledger, section: SectionId, attrs: seq<Attr>, sides: Sides, cond: Device): (l': Ledger)
    requires Covers(l.values, attrs, sides)
    ensures l'.values.Keys == l.values.Keys
    ensures l.changed.Valid() && l.ir.Valid() ==> l'.changed.Valid() && l'.ir.Valid()
    decreases |attrs|
  {
    if attrs == [] then l
    else
      var prev := ResolveAll(l, section, attrs[..|attrs| - 1], sides, cond);
      ResolveAttr(prev, section, attrs[|attrs| - 1], sides, cond)
  }

  lemma ResolveAllSnoc(l: Ledger, section: SectionId, attrs: seq<Attr>, a: Attr, sides: Sides, cond: Device)
    requires Covers(l.values, attrs + [a], sides)
    ensures Covers(l.values, attrs, sides)
    ensures ResolveAll(l, section, attrs + [a], sides, cond) ==
            ResolveAttr(ResolveAll(l, section, attrs, sides, cond), section, a, sides, cond)
  {
    assert (attrs + [a])[..|attrs|] == attrs;
  }

  /** The change records of `section` agree with the device's values, and
      none of them assigns CA. */
  ghost predicate Agrees(section: SectionId, values: map<Attr, string>, changed: Report<ChangeRecord>)
  {
    forall k :: k in changed.entries && k.section == section ==>
      k.attr in values && values[k.attr] == changed.entries[k].newId && changed.entries[k].newId != CA
  }

  /** Every record sits under its own key, and every input-required record
      has CA on both sides. */
  ghost predicate Keyed(changed: Report<ChangeRecord>, ir: Report<IrRecord>)
  {
    changed.Valid() && ir.Valid() &&
    (forall k :: k in changed.entries ==>
       changed.entries[k].section == k.section && changed.entries[k].attr == k.attr) &&
    (forall k :: k in ir.entries ==>
       ir.entries[k].section == k.section && ir.entries[k].attr == k.attr &&
       ir.entries[k].upstream == CA && ir.entries[k].downstream == CA)
  }

  /** Resolution keeps every record under its key and keeps the change
      records of the device's section in agreement with the device. */
  lemma {:induction false} ResolveAllKeyed(l: Ledger, section: SectionId, attrs: seq<Attr>, sides: Sides,
                                           cond: Device)
    requires Covers(l.values, attrs, sides)
    requires Keyed(l.changed, l.ir) && Agrees(section, l.values, l.changed)
    ensures var l' := ResolveAll(l, section, attrs, sides, cond);
            Keyed(l'.changed, l'.ir) && Agrees(section, l'.values, l'.changed)
    decreases |attrs|
  {
    if attrs != [] {
      var n := |attrs| - 1;
      var a := attrs[n];
      assert attrs == attrs[..n] + [a];
      ResolveAllSnoc(l, section, attrs[..n], a, sides, cond);
      ResolveAllKeyed(l, section, attrs[..n], sides, cond);
    }
  }

  /** Resolution writes only under the device's own section and the
      resolved attributes, and every input-required record it writes points
      at the device; the records of other keys are left alone. */
  lemma {:induction false} ResolveAllLocal(l: Ledger, section: SectionId, attrs: seq<Attr>, sides: Sides,
                                           cond: Device)
    requires Covers(l.values, attrs, sides)
    ensures var l' := ResolveAll(l, section, attrs, sides, cond);
            forall k :: k in l'.changed.entries ==>
              (k in l.changed.entries && l'.changed.entries[k] == l.changed.entries[k]) ||
              (k.section == section && k.attr in attrs)
    ensures var l' := ResolveAll(l, section, attrs, sides, cond);
            forall k :: k in l'.ir.entries ==>
              (k in l.ir.entries && l'.ir.entries[k] == l.ir.entries[k]) ||
              (k.section == section && k.attr in attrs && l'.ir.entries[k].cond == cond)
    decreases |attrs|
  {
    if attrs != [] {
      var n := |attrs| - 1;
      var a := attrs[n];
      assert attrs == attrs[..n] + [a];
      ResolveAllSnoc(l, section, attrs[..n], a, sides, cond);
      ResolveAllLocal(l, section, attrs[..n], sides, cond);
      assert forall x :: x in attrs[..n] ==> x in attrs;
    }
  }

  /** With distinct attributes, each one gets exactly one record under its
      key: a change whose OLD is the value before resolution, whose NEW is
      not CA and is written into the device, or, when both sides are CA, an
      input-required record; the value is then left as it was. */
  lemma {:induction false} ResolveAllRecords(l: Ledger, section: SectionId, attrs: seq<Attr>, sides: Sides,
                                             cond: Device, i: nat)
    requires Covers(l.values, attrs, sides)
    requires forall p, r :: 0 <= p < r < |attrs| ==> attrs[p] != attrs[r]
    requires i < |attrs|
    ensures var l' := ResolveAll(l, section, attrs, sides, cond);
            var a := attrs[i];
            match Decide(sides.up[a], sides.down[a], sides.upKva, sides.downKva)
            case Change(v) =>
              Key(section, a) in l'.changed.entries &&
              l'.changed.entries[Key(section, a)] == ChangeRecord(section, l.values[a], v, a) && v != CA &&
              l'.values[a] == v &&
              (Key(section, a) in l'.ir.entries <==> Key(section, a) in l.ir.entries)
            case InputRequired =>
              Key(section, a) in l'.ir.entries &&
              l'.ir.entries[Key(section, a)] == IrRecord(section, CA, CA, a, cond) &&
              l'.values[a] == l.values[a] &&
              (Key(section, a) in l'.changed.entries <==> Key(section, a) in l.changed.entries)
    decreases |attrs|
  {
    var n := |attrs| - 1;
    var last := attrs[n];
    assert attrs == attrs[..n] + [last];
    ResolveAllSnoc(l, section, attrs[..n], last, sides, cond);
    var prev := ResolveAll(l, section, attrs[..n], sides, cond);
    if i < n {
      ResolveAllRecords(l, section, attrs[..n], sides, cond, i);
      assert attrs[..n][i] == attrs[i];
      ResolveAttrOther(prev, section, last, sides, cond, attrs[i]);
    } else {
      ResolveAllUntouched(l, section, attrs[..n], sides, cond, last);
      ResolveAttrOwn(prev, section, last, sides, cond);
    }
  }

  /** Resolving attribute `a` gives it one record under its key: the change
      from its current value, or the input-required record, as the rule
      table decides. */
  lemma ResolveAttrOwn(l: Ledger, section: SectionId, a: Attr, sides: Sides, cond: Device)
    requires a in l.values && a in sides.up && a in sides.down
    ensures var l' := ResolveAttr(l, section, a, sides, cond);
            match Decide(sides.up[a], sides.down[a], sides.upKva, sides.downKva)
            case Change(v) =>
              Key(section, a) in l'.changed.entries &&
              l'.changed.entries[Key(section, a)] == ChangeRecord(section, l.values[a], v, a) && v != CA &&
              l'.values[a] == v &&
              (Key(section, a) in l'.ir.entries <==> Key(section, a) in l.ir.entries)
            case InputRequired =>
              Key(section, a) in l'.ir.entries &&
              l'.ir.entries[Key(section, a)] == IrRecord(section, CA, CA, a, cond) &&
              l'.values[a] == l.values[a] &&
              (Key(section, a) in l'.changed.entries <==> Key(section, a) in l.changed.entries)
  {
  }

  /** Resolving attribute `b` leaves the value and the records of any other
      attribute `a` as they were. */
  lemma ResolveAttrOther(l: Ledger, section: SectionId, b: Attr, sides: Sides, cond: Device, a: Attr)
    requires b in l.values && b in sides.up && b in sides.down
    requires a != b && a in l.values
    ensures var l' := ResolveAttr(l, section, b, sides, cond);
            a in l'.values && l'.values[a] == l.values[a] &&
            (Key(section, a) in l'.changed.entries <==> Key(section, a) in l.changed.entries) &&
            (Key(section, a) in l.changed.entries ==>
               l'.changed.entries[Key(section, a)] == l.changed.entries[Key(section, a)]) &&
            (Key(section, a) in l'.ir.entries <==> Key(section, a) in l.ir.entries) &&
            (Key(section, a) in l.ir.entries ==> l'.ir.entries[Key(section, a)] == l.ir.entries[Key(section, a)])
  {
  }

  /** Resolution never removes a record, and leaves every resolved attribute
      with a record in one of the two reports. */
  lemma {:induction false} ResolveAllGrows(l: Ledger, section: SectionId, attrs: seq<Attr>, sides: Sides,
                                           cond: Device)
    requires Covers(l.values, attrs, sides)
    ensures var l' := ResolveAll(l, section, attrs, sides, cond);
            l.changed.entries.Keys <= l'.changed.entries.Keys && l.ir.entries.Keys <= l'.ir.entries.Keys &&
            forall a :: a in attrs ==> Key(section, a) in l'.changed.entries || Key(section, a) in l'.ir.entries
    decreases |attrs|
  {
    if attrs != [] {
      var n := |attrs| - 1;
      assert attrs == attrs[..n] + [attrs[n]];
      ResolveAllSnoc(l, section, attrs[..n], attrs[n], sides, cond);
      ResolveAllGrows(l, section, attrs[..n], sides, cond);
    }
  }

  /** An attribute not among `attrs` keeps its value and its records. */
  lemma {:induction false} ResolveAllUntouched(l: Ledger, section: SectionId, attrs: seq<Attr>, sides: Sides,
                                               cond: Device, a: Attr)
    requires Covers(l.values, attrs, sides)
    requires a !in attrs && a in l.values
    ensures var l' := ResolveAll(l, section, attrs, sides, cond);
            l'.values[a] == l.values[a] &&
            (Key(section, a) in l'.changed.entries <==> Key(section, a) in l.changed.entries) &&
            (Key(section, a) in l'.ir.entries <==> Key(section, a) in l.ir.entries)
    decreases |attrs|
  {
    if attrs != [] {
      var n := |attrs| - 1;
      assert attrs == attrs[..n] + [attrs[n]];
      ResolveAllSnoc(l, section, attrs[..n], attrs[n], sides, cond);
      ResolveAllUntouched(l, section, attrs[..n], sides, cond, a);
    }
  }

  /** Resolves every attribute of `lineTypeIds` on `assignConductor` from its
      upstream and downstream walks over `net`, in place. */
  method AssignCond(assignConductor: Device, lineTypeIds: seq<Attr>, condDictionary: map<SectionId, Device>,
                    changedDict: Report<ChangeRecord>, irDict: Report<IrRecord>,
                    itDepthMax: nat, kvaPctMax: real, defaultList: seq<string>, net: Traversal)
    returns (changed: Report<ChangeRecord>, ir: Report<IrRecord>)
    requires Carries(View(condDictionary),
                     Search(assignConductor.kind, assignConductor.dwKva, assignConductor.section, Up, lineTypeIds))
    requires forall a :: a in lineTypeIds ==> a in assignConductor.values
    modifies assignConductor
    ensures Ledger(assignConductor.values, changed, ir) ==
            ResolveAll(Ledger(old(assignConductor.values), changedDict, irDict), assignConductor.section, lineTypeIds,
                       old(WalkSides(View(condDictionary), assignConductor.kind, assignConductor.dwKva,
                                     assignConductor.section, lineTypeIds,
                                     Config(itDepthMax, kvaPctMax, defaultList), net)),
                       assignConductor)
  {
    var section := assignConductor.section;
    ghost var view := View(condDictionary);
    ghost var cfg := Config(itDepthMax, kvaPctMax, defaultList);
    assert Carries(view, Search(assignConductor.kind, assignConductor.dwKva, section, Down, lineTypeIds));
    var upCond, upKva :=
      GetCond(assignConductor, Up, condDictionary, lineTypeIds, itDepthMax, kvaPctMax, defaultList, net(section, Up));
    var downCond, downKva :=
      GetCond(assignConductor, Down, condDictionary, lineTypeIds, itDepthMax, kvaPctMax, defaultList,
              net(section, Down));
    ghost var sides := Sides(upCond, downCond, upKva, downKva);
    assert sides == WalkSides(view, assignConductor.kind, assignConductor.dwKva, section, lineTypeIds, cfg, net);
    changed, ir := RecordOutcomes(assignConductor, lineTypeIds, upCond, downCond, upKva, downKva, changedDict, irDict);
  }

  /** The loop of the resolution over the attributes: applies the rule table
      to each attribute, records the outcome and writes a new ID into the
      device. */
  method RecordOutcomes(assignConductor: Device, lineTypeIds: seq<Attr>, upCond: map<Attr, string>,
                        downCond: map<Attr, string>, upKva: bool, downKva: bool,
                        changedDict: Report<ChangeRecord>, irDict: Report<IrRecord>)
    returns (changed: Report<ChangeRecord>, ir: Report<IrRecord>)
    requires Covers(assignConductor.values, lineTypeIds, Sides(upCond, downCond, upKva, downKva))
    modifies assignConductor
    ensures Ledger(assignConductor.values, changed, ir) ==
            ResolveAll(Ledger(old(assignConductor.values), changedDict, irDict), assignConductor.section, lineTypeIds,
                       Sides(upCond, downCond, upKva, downKva), assignConductor)
  {
    var section := assignConductor.section;
    ghost var sides := Sides(upCond, downCond, upKva, downKva);
    ghost var l0 := Ledger(assignConductor.values, changedDict, irDict);
    changed, ir := changedDict, irDict;
    for j := 0 to |lineTypeIds|
      invariant Covers(l0.values, lineTypeIds[..j], sides)
      invariant Ledger(assignConductor.values, changed, ir) == ResolveAll(l0, section, lineTypeIds[..j], sides, assignConductor)
    {
      var a := lineTypeIds[j];
      PrefixSnoc(lineTypeIds, j);
      ResolveAllSnoc(l0, section, lineTypeIds[..j], a, sides, assignConductor);
      ghost var next := ResolveAttr(Ledger(assignConductor.values, changed, ir), section, a, sides, assignConductor);
      match Decide(upCond[a], downCond[a], upKva, downKva)
      case Change(n) =>
        changed := changed.Put(Key(section, a), ChangeRecord(section, assignConductor.values[a], n, a));
        assignConductor.SetValue(n, a);
        assert Ledger(assignConductor.values, changed, ir) == next;
      case InputRequired =>
        ir := ir.Put(Key(section, a), IrRecord(section, upCond[a], downCond[a], a, assignConductor));
        assert Ledger(assignConductor.values, changed, ir) == next;
    }
    assert lineTypeIds[..|lineTypeIds|] == lineTypeIds;
  }

  /** The candidates and load flags of the upstream walk from the device's
      from-node and the downstream walk from its to-node. */
  ghost function WalkSides(view: map<SectionId, Entry>, kind: DeviceType, dwKva: real, section: SectionId,
                           attrs: seq<Attr>, cfg: Config, net: Traversal): (sides: Sides)
    requires Carries(view, Search(kind, dwKva, section, Up, attrs))
    ensures forall a :: a in attrs ==> a in sides.up && a in sides.down
    ensures forall a :: a in attrs ==> sides.up[a] != NA && sides.down[a] != NA
  {
    assert Carries(view, Search(kind, dwKva, section, Down, attrs));
    var up := Candidates(view, Search(kind, dwKva, section, Up, attrs), cfg, net(section, Up));
    var down := Candidates(view, Search(kind, dwKva, section, Down, attrs), cfg, net(section, Down));
    Sides(up.0, down.0, up.1, down.1)
  }
}
