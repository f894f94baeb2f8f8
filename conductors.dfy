/** The network entities the conductor resolution works on: sections, the
    conductor devices that sit on them, their ID attributes, and the
    configuration constants of a run. */
module Conductors {

  type SectionId = string

  /** The four conductor device categories, in the order they are scanned. */
  datatype DeviceType = OverheadLine | OverheadByPhase | OverheadLineUnbalanced | Underground

  /** The conductor ID attributes a device may carry. */
  datatype Attr =
    | LineID
    | PhaseConductorIDA | PhaseConductorIDB | PhaseConductorIDC
    | NeutralConductorID1 | NeutralConductorID2
    | CableID

  /** The attribute names tested and resolved for each category, in order. */
  function AttrsOf(kind: DeviceType): (attrs: seq<Attr>)
    ensures |attrs| > 0
    ensures kind == OverheadByPhase <==> |attrs| == 5
  {
    match kind
    case OverheadLine => [LineID]
    case OverheadLineUnbalanced => [LineID]
    case OverheadByPhase =>
      [PhaseConductorIDA, PhaseConductorIDB, PhaseConductorIDC, NeutralConductorID1, NeutralConductorID2]
    case Underground => [CableID]
  }

  /** The first attribute of each category's list singles the category
      out: line IDs belong to the two line categories, phase IDs to the
      by-phase category, cable IDs to underground cables. */
  lemma AttrsApart(kind: DeviceType)
    ensures LineID in AttrsOf(kind) <==> kind == OverheadLine || kind == OverheadLineUnbalanced
    ensures CableID in AttrsOf(kind) <==> kind == Underground
    ensures PhaseConductorIDA in AttrsOf(kind) <==> kind == OverheadByPhase
  {
  }

  /** Sentinel written into a candidate set before anything is found. */
  const NA: string := "N/A"
  /** Sentinel meaning "cannot assign": conflicting or no candidates. */
  const CA: string := "CA"

  datatype Direction = Up | Down

  /** One position of a network traversal: a section and its hop depth. */
  datatype Step = Step(section: SectionId, depth: nat)

  /** The network iterator: the ordered, depth-annotated walk that starts
      at a section's from-node (Up) or to-node (Down). */
  type Traversal = (SectionId, Direction) -> seq<Step>

  /** The three constants of a run: depth horizon, largest relative kVA
      difference, and the placeholder IDs. */
  datatype Config = Config(depthMax: nat, kvaDiffMax: real, defaults: seq<string>)

  const RunConfig: Config := Config(3, 0.1, ["DEFAULT", "N/A"])

  /** A conductor device of the study. Its ID attributes are updated in
      place; everything else about it is fixed during a run. */
  class Device {
    const section: SectionId
    const kind: DeviceType
    /** Downstream total kVA of the device, as the load-flow query reports it. */
    const dwKva: real
    var values: map<Attr, string>

    constructor (section: SectionId, kind: DeviceType, dwKva: real, values: map<Attr, string>)
      ensures this.section == section && this.kind == kind && this.dwKva == dwKva
      ensures this.values == values
    {
      this.section := section;
      this.kind := kind;
      this.dwKva := dwKva;
      this.values := values;
    }

    /** The device carries every attribute of its category. */
    predicate Carries()
      reads this
    {
      forall a :: a in AttrsOf(kind) ==> a in values
    }

    method SetValue(v: string, a: Attr)
      modifies this
      ensures values == old(values)[a := v]
      ensures old(Carries()) ==> Carries()
    {
      values := values[a := v];
    }
  }

  /** What the resolution reads of a device, as a value. */
  datatype Entry = Entry(kind: DeviceType, dwKva: real, values: map<Attr, string>)

  /** The index as values: each section's device as it currently stands. */
  ghost function View(idx: map<SectionId, Device>): (view: map<SectionId, Entry>)
    reads idx.Values
    ensures view.Keys == idx.Keys
    ensures forall s :: s in idx ==> view[s] == Entry(idx[s].kind, idx[s].dwKva, idx[s].values)
    ensures (forall s :: s in idx ==> idx[s].Carries()) ==> WellFormed(view)
  {
    map s | s in idx :: Entry(idx[s].kind, idx[s].dwKva, idx[s].values)
  }

  /** Every entry carries the attributes of its category. */
  ghost predicate WellFormed(view: map<SectionId, Entry>)
  {
    forall s, a :: s in view && a in AttrsOf(view[s].kind) ==> a in view[s].values
  }

  /** Every device is filed under its own section. */
  predicate Sectioned(idx: map<SectionId, Device>)
  {
    forall s :: s in idx ==> idx[s].section == s
  }

  /** Extending a prefix by one element. */
  lemma PrefixSnoc<T>(s: seq<T>, j: nat)
    requires j < |s|
    ensures s[..j + 1] == s[..j] + [s[j]]
    ensures s[..j + 1][..j] == s[..j] && s[..j + 1][j] == s[j]
  {
  }

  /** A prefix of a prefix. */
  lemma PrefixOfPrefix<T>(s: seq<T>, n: nat, i: nat)
    requires i <= n <= |s|
    ensures s[..n][..i] == s[..i]
    ensures i < n ==> s[..n][i] == s[i]
  {
  }
}
