# Conductor resolution, modelled in Dafny

This project models the conductor-ID resolution of `AssignConductor.py`. In a
radial distribution network, some conductor devices still carry a placeholder
conductor ID, such as `DEFAULT...` or anything containing `N/A`. For each one,
the program walks the network upstream and downstream from the device's
section. It collects the IDs of nearby devices of the same type. It then
settles each attribute of the device's category from what the two walks
found. All of them are resolved as soon as one holds a placeholder, so a
by-phase device is resolved on its five attributes even if only one was a
placeholder. Each attribute ends with one of:

- a new ID, which it writes into the device and logs as a change record;
- or an input-required record, when neither walk found a usable ID.

A final refinement pass resolves every input-required attribute once more.

The model follows the program's structure. Each module has one job.

- `Conductors` (`conductors.dfy`) defines the entities:
  - The four device categories and the conductor-ID attributes of each (`AttrsOf`).
  - The sentinels `N/A` (nothing found yet) and `CA` (cannot assign).
  - The run constants `RunConfig`: depth 3, relative kVA difference 0.1, placeholders `["DEFAULT", "N/A"]`.
  - The network iterator, as a `Traversal`: for a section and a direction, the ordered, depth-annotated sections it yields.
  - `Device`, a class whose ID attributes (`values`) are updated in place by `SetValue`. The index holds references to the same devices the worklists hold, so a fix made early in a pass is seen by every later walk.
- `Reports` (`reports.dfy`) models the insertion-ordered dictionaries `changed_dictionary`, `input_required_dictionary` and `default_dictionary`. Keys are `(section, attribute)` pairs, and `Put` overwrites an entry in place.
- `DefaultCheck` (`default_check.dfy`) is `check_default_cond`: a substring test against each placeholder.
- `ConductorIndex` (`conductor_index.dfy`) is `get_conductors`:
  - four scans, where the first device registered for a section wins;
  - each scan builds a worklist of the registered devices that hold a placeholder.
- `CandidateWalk` (`candidate_walk.dfy`) is `get_cond`. The specification is the function `Walk`, which visits section by section. The source's loops are the methods `GetCond`, `Traverse`, `VisitStep`, `FoldSection` and `MarkUnassigned`, each proved equal to that specification.
- `WalkProperties` (`walk_properties.dfy`) holds lemmas about the walk:
  - the depth asymmetry: upstream stops past the horizon, downstream skips;
  - the stop at a device of another type;
  - the discarding of a section that holds a placeholder;
  - a conflict never reverts;
  - candidates are never invented.
- `Resolution` (`resolution.dfy`) is `assign_cond`:
  - the rule table (`Decide`);
  - its effect on the device and the two reports (`ResolveAll`);
  - the method `AssignCond`, proved against it.
- `DriverSpec` (`driver_spec.dfy`) states the driver on values. The index is read as the entries of its sections (`View`), each holding the device's category, load and IDs as they stand:
  - `ResolveAt`: one call of `assign_cond` on a section, walking the entries as they stand;
  - `VisitEntry` and `Pass`: a worklist pass, where a section is resolved only if one of the pass's attributes still holds a placeholder when its turn comes;
  - `AllPasses`: the three passes from empty reports;
  - `Refinement` and `RunOutcome`: the refinement over the input-required keys in insertion order, and the whole run.
- `FixCond` (`fix_cond.dfy`) is the driver `fix_cond`:
  - the circuit count check;
  - the index build;
  - the three passes over the worklists;
  - the refinement over the input-required entries, in their insertion order.

The driver's methods are proved equal to these functions, one level at a time:
- a resolution of one device is `ResolveAt`;
- a pass is `Pass`;
- the three passes are `AllPasses`;
- the refinement is `Refinement`;
- the run after the index build is `RunOutcome`.

The driver's main result (`FixCond.FixCond`) gives the following guarantees:

- The input-required report of the first passes is exactly that of `AllPasses`, and the final entries and reports are exactly `RunOutcome`. Both start from the entries the indexed devices held when the run began.
- Every device on a worklist ends the run with a record per attribute of its category: a change record, or an input-required record of the first passes.
- Every attribute still needing input after the refinement was already needing input after the passes.
- Every change record names an indexed device whose attribute now holds the record's new ID, and that ID is never `CA`.
- Every input-required record points at the indexed device of its section.

The ID of a dictionary entry in the source is the string `section + ", " + attribute`. It is modelled as the pair `Key(section, attr)`. The attribute names contain no comma, so distinct pairs give distinct strings. The sections a walk visits come from the `Traversal` parameter. The downstream kVA of a device is its field `dwKva`.

## Model

| member | source | states |
|---|---|---|
| Conductors.AttrsOf | AssignConductor.py:319-349 | The attributes resolved for each category are never empty. Only the by-phase category has five: A, B and C phase and two neutrals. |
| Conductors.AttrsApart | AssignConductor.py:319-349 | LineID belongs exactly to the two single-line overhead categories, CableID to underground cables, PhaseConductorIDA to the by-phase category. The three passes therefore never share a category. |
| Conductors.View | AssignConductor.py:313 | The index read as values: the same sections, each entry being its device's category, load and IDs as they stand. Entries carry their attributes when the devices do. |
| Conductors.Device.SetValue | AssignConductor.py:216 | Writing an ID changes exactly that attribute of the device. The device keeps carrying its category's attributes. |
| Reports.Report.Put | AssignConductor.py:215 | Storing under a key overwrites that entry and keeps its position. A new key goes at the end. Key order stays duplicate-free and matches the entries. |
| Reports.Empty | AssignConductor.py:316-317 | A fresh report has no keys and no entries. |
| DefaultCheck.CheckDefaultCond | AssignConductor.py:4-17 | The early-exit loop returns true exactly when some placeholder occurs in the ID. An empty placeholder list gives false. |
| DefaultCheck.IsDefault | AssignConductor.py:11-17 | When the test holds, some placeholder of the list occurs in the ID. The converse is `IsDefaultSome`. |
| DefaultCheck.IsDefaultSome | AssignConductor.py:12-15 | The placeholder test holds iff some placeholder of the list occurs in the ID (existential form). |
| DefaultCheck.ContainsInside | AssignConductor.py:13 | The test is a substring test: a placeholder surrounded by any text still matches. |
| DefaultCheck.SubstringNotEquality | AssignConductor.py:301 | With the run's placeholders, "DEFAULT_1KV" and "336AL N/A" are defaults, and no ID shorter than three characters is. |
| ConductorIndex.Register | AssignConductor.py:44-46 | A scan only adds sections: every section indexed before it is still indexed. Which device each section gets is `RegisterFirstWins`. |
| ConductorIndex.RegisterAppend | AssignConductor.py:44-73 | Registering two device lists one after the other is the same as registering their concatenation. |
| ConductorIndex.RegisterFirstWins | AssignConductor.py:44-73 | A section is indexed iff it was already indexed or some scanned device sits on it. An indexed section keeps its device. A new section gets the first device scanned on it. |
| ConductorIndex.RegisterSectioned | AssignConductor.py:45-46 | Every device is filed under its own section. Every indexed device comes from the old index or the scanned list. |
| ConductorIndex.RegisterKeeps | AssignConductor.py:45 | A section already indexed keeps its device through a later scan. |
| ConductorIndex.PendingIndexed | AssignConductor.py:44-48 | Every worklist entry is a scanned device that holds a placeholder and was not yet indexed. It is the device the index keeps for its section. |
| ConductorIndex.PendingComplete | AssignConductor.py:44-48 | Conversely, each scanned device that is first on its section and holds a placeholder is in the worklist. |
| ConductorIndex.PendingDistinct | AssignConductor.py:44-73 | No two worklist entries share a section. |
| ConductorIndex.ScanDevices | AssignConductor.py:44-48 | The scan loop yields the index after registering the devices, and the worklist of those holding a placeholder. |
| ConductorIndex.AnyDefault | AssignConductor.py:54-58 | The chain of `or`ed tests is true iff some listed attribute holds a placeholder. |
| ConductorIndex.GetConductors | AssignConductor.py:20-75 | The four scans in category order build the first-wins index. The worklists are: overhead followed by unbalanced, by phase, and underground. Every listed device is indexed under its section and holds a placeholder. The scans leave the entries of the indexed devices as they were (`IndexView` equals the ghost `start` taken on entry). |
| ConductorIndex.ChainedScans | AssignConductor.py:44-73 | Each scan continues from the index the previous scans left, which is the index of all devices scanned so far. |
| ConductorIndex.ScansListed | AssignConductor.py:44-75 | Every device on any of the four worklists is the indexed device of its section in the final index and holds a placeholder. |
| ConductorIndex.ListedAreIndexed | AssignConductor.py:44-73 | A device listed by one scan is still the indexed device of its section after any later scans. |
| CandidateWalk.InKva | AssignConductor.py:131-135 | A zero reference load never passes. For a positive reference the gate passes iff the difference is strictly below the allowed fraction of the reference. A negative reference inverts the comparison. |
| CandidateWalk.Merge | AssignConductor.py:143-152 | The result is the visited ID or CA. An unset candidate adopts the ID. The same ID again leaves the candidate as it is. CA stays CA. A different ID turns the candidate into CA. |
| CandidateWalk.Init | AssignConductor.py:96-98 | The candidates start as N/A for exactly the searched attributes. |
| CandidateWalk.MergeAll | AssignConductor.py:138-152 | Folding a section's IDs keeps the set of tracked attributes. |
| CandidateWalk.FoldAttrs | AssignConductor.py:138-159 | The attribute-by-attribute fold keeps the set of tracked attributes. |
| CandidateWalk.MergeAllSnoc | AssignConductor.py:141-152 | Merging one more attribute changes only that attribute's candidate. |
| CandidateWalk.FoldAttrsMerges | AssignConductor.py:141-152 | The in-order fold gives the same candidates as merging every searched attribute at once. |
| CandidateWalk.FoldAttrsCounts | AssignConductor.py:154-171 | The count of attributes still needing search is zero iff every searched attribute is good: found with the load in range, or CA. |
| CandidateWalk.Visit | AssignConductor.py:108-172 | A visit keeps the tracked attributes. It raises the horizon by one exactly at the start section. It never turns a CA back. |
| CandidateWalk.Absorb | AssignConductor.py:124-172 | A section of the searched type within the horizon. The load flag becomes the section's kVA test. If a searched ID of the section is a placeholder, the candidates are unchanged and the walk goes on. Otherwise the candidates are the merge of all its IDs, and the walk ends there exactly when every attribute is good. The tracked attributes and the horizon are kept, and a CA never turns back. |
| CandidateWalk.Walk | AssignConductor.py:108-172 | The walk keeps the set of tracked attributes. |
| CandidateWalk.WalkStep | AssignConductor.py:108-172 | The walk from position i is the visit of step i, then the walk from i+1 unless that visit ended it. |
| CandidateWalk.Finalize | AssignConductor.py:174-177 | Every attribute still N/A becomes CA, so none is N/A afterwards. Every found candidate, CA included, is kept. |
| CandidateWalk.Candidates | AssignConductor.py:78-179 | A walk returns a candidate for exactly the searched attributes, none of them N/A. |
| CandidateWalk.FoldSection | AssignConductor.py:138-165 | The section is dropped iff some searched attribute of it is a placeholder. Otherwise the loop's candidates are the merge of all its IDs, and its bad count is zero iff all attributes are good. |
| CandidateWalk.GetCond | AssignConductor.py:78-179 | The method returns exactly the candidates and load flag that `Candidates` specifies for the device, direction and traversal. |
| CandidateWalk.Traverse | AssignConductor.py:108-172 | The search loop ends in the walker state that `Walk` specifies from the given start state. |
| CandidateWalk.VisitStep | AssignConductor.py:109-172 | One loop iteration produces the new state `Visit` specifies, and stops exactly when `Visit` halts. |
| CandidateWalk.MarkUnassigned | AssignConductor.py:174-177 | The closing loop turns every N/A into CA and leaves the rest: `Finalize`. |
| WalkProperties.WalkAppend | AssignConductor.py:108-172 | Walking s1 + s2 is walking s1 and, unless that ended the walk, walking s2 from where s1 left off. |
| WalkProperties.WalkSplice | AssignConductor.py:108-172 | Walking s1 + [x] + s2 is the visit of x after s1, then s2 unless that visit ended the walk. |
| WalkProperties.StartRevisitExtendsHorizon | AssignConductor.py:110-112 | Meeting the start section again contributes nothing and extends the horizon by one. |
| WalkProperties.UpWalkEndsPastHorizon | AssignConductor.py:116-118 | Upstream, the first section past the horizon ends the walk, whatever follows it. |
| WalkProperties.DownWalkSkipsPastHorizon | AssignConductor.py:116-120 | Downstream, a section past the horizon is skipped: the walk is the same as without it. |
| WalkProperties.WalkStopsAtForeignType | AssignConductor.py:122-128 | An indexed section of another device type within the horizon ends the walk with the load flag cleared. |
| WalkProperties.UnindexedClearsLoad | AssignConductor.py:122-125 | A section that is not indexed contributes no ID and clears the load flag. |
| WalkProperties.PlaceholderSectionDiscarded | AssignConductor.py:131-165 | A section with a placeholder in any searched attribute leaves every candidate unchanged. Only its load flag is kept. |
| WalkProperties.CleanSectionFolds | AssignConductor.py:131-172 | A same-type section within the horizon whose searched IDs are all concrete is folded in. Every candidate is merged with its ID and the load flag is the section's. The walk ends there exactly when every attribute is good. |
| WalkProperties.WalkKeepsConflict | AssignConductor.py:150-152 | Once an attribute is CA it stays CA to the end of the walk. |
| WalkProperties.VisitProvenance | AssignConductor.py:141-152 | A visit keeps a candidate, makes it CA, or sets it to the visited section's own non-placeholder ID. |
| WalkProperties.WalkProvenance | AssignConductor.py:108-172 | At the end of a walk, each candidate is the starting one, CA, or the non-placeholder ID held by some indexed step of the traversal of the searched type. |
| WalkProperties.CandidatesProvenance | AssignConductor.py:78-179 | Every returned candidate is CA or a non-placeholder ID held by some indexed same-type step of the traversal. IDs are never invented. |
| WalkProperties.DownHaltIsSettled | AssignConductor.py:170-172 | A downstream walk that meets no foreign-type section ends early only when every attribute is good. |
| Resolution.Decide | AssignConductor.py:210-264 | Input is required iff both sides are CA. Otherwise the chosen ID is one of the two sides and never CA. One CA side yields the other side. Two distinct IDs yield upstream iff only upstream's load is in range; in every other case downstream. |
| Resolution.ResolveAttr | AssignConductor.py:210-264 | Resolving one attribute keeps the device's attribute names and only adds keys. It leaves that attribute with a change or input-required record, and keeps both reports duplicate-free. |
| Resolution.ResolveAll | AssignConductor.py:204-264 | Resolving the attributes keeps the set of the device's attributes. |
| Resolution.ResolveAllSnoc | AssignConductor.py:204-264 | Resolving one more attribute is one more step of the rule table applied to the result. |
| Resolution.ResolveAllKeyed | AssignConductor.py:204-264 | Each record sits under its own key, and input-required records have CA on both sides. Change records for the device agree with its values and never assign CA. |
| Resolution.ResolveAllLocal | AssignConductor.py:204-264 | Resolution writes only under the device's own section and the resolved attributes. New input-required records point at the device. Every other record is untouched. |
| Resolution.ResolveAllRecords | AssignConductor.py:204-264 | For distinct attributes, each gets one record under its key. A change from its old ID to the chosen ID is written into the device. Otherwise an input-required record (CA, CA) is filed and the value is left alone. |
| Resolution.ResolveAttrOwn | AssignConductor.py:210-264 | One attribute's resolution files the record the rule table chooses for it. |
| Resolution.ResolveAttrOther | AssignConductor.py:204-264 | Resolving one attribute leaves any other attribute's value and records unchanged. |
| Resolution.ResolveAllGrows | AssignConductor.py:204-264 | No record is removed. Every resolved attribute ends with a change or input-required record. |
| Resolution.ResolveAllUntouched | AssignConductor.py:204-264 | An attribute not being resolved keeps its value and its records. |
| Resolution.AssignCond | AssignConductor.py:182-266 | The device's new values and both reports are `ResolveAll` applied to the candidates of the upstream and downstream walks. |
| Resolution.RecordOutcomes | AssignConductor.py:204-264 | The loop over the attributes leaves the device and reports as `ResolveAll` specifies for the given sides. |
| Resolution.WalkSides | AssignConductor.py:196-202 | Both walks give a non-N/A candidate for every resolved attribute. |
| FixCond.CompleteCarries | AssignConductor.py:125-143 | In a complete index, every indexed section of the walked category carries the attributes searched for. |
| FixCond.ResolveDevice | AssignConductor.py:324-326 | One call of the resolution on an indexed device. The index's entries and both reports become exactly `ResolveAt` of the state before the call. The bookkeeping holds: the index stays complete, records stay keyed, changes agree with the devices, and input-required records stay filed. Keys are only added. Each resolved attribute ends with a record, and new input-required keys are only that device's. |
| FixCond.ResolveRecords | AssignConductor.py:324-326 | The same call seen from the device's records. Its outcome is the same `ResolveAt` equation. Change records of other sections are left untouched. |
| FixCond.ViewAfterWrite | AssignConductor.py:216 | Writing into one indexed device changes the index's entries at that device's section only. |
| FixCond.LedgerStep | AssignConductor.py:204-264 | On the records, resolution keeps them keyed, agreeing and filed. It adds keys only under the device's section and records every resolved attribute. |
| FixCond.RunPass | AssignConductor.py:320-349 | One pass over a worklist. The index's entries and the reports become exactly `Pass` of the entries before the pass and the incoming reports, with the worklist's sections in order. The bookkeeping holds and no record is lost. Every worklist device that held a placeholder when the pass began has a record per attribute. |
| FixCond.VisitListed | AssignConductor.py:320-326 | One worklist turn is exactly `VisitEntry`. A device with a placeholder is resolved and recorded. One without is neither touched nor recorded. |
| FixCond.Refine | AssignConductor.py:352-359 | The refinement is exactly `Refinement` over the input-required keys in insertion order, from a fresh input-required report. It keeps the bookkeeping. Every entry of the final input-required report was input-required before. Every earlier input-required entry ends either changed or still input-required. |
| FixCond.FiledFits | AssignConductor.py:355-357 | Each key of a filed input-required report names an indexed section and an attribute of its category, so it can be resolved again. |
| FixCond.RefineEntry | AssignConductor.py:355-359 | Resolving one input-required entry again is exactly `ResolveAt` on its section and attribute. It records the key as changed or input-required and adds no other input-required key. |
| FixCond.FixCond | AssignConductor.py:295-359 | More than one circuit or none refuses the run; exactly one runs it. The index and the three worklists are those of the scans. `RanFrom`: from the entries `start` the devices held on entry, `firstPass` is exactly `AllPasses(...).ir` and the final entries and reports are exactly `RunOutcome(...)`. Change records agree with the devices and never assign CA. Input-required records are keyed and filed, and are a subset of the passes' ones. Every worklist device has a record per attribute after the passes and after the refinement. |
| FixCond.RunPasses | AssignConductor.py:313-359 | The passes, then the refinement. The input-required report of the passes is exactly that of `AllPasses`. The final entries and reports are exactly `RunOutcome` of the entries the index held before. The run's record guarantees hold. |
| FixCond.Passes | AssignConductor.py:319-349 | The three passes give exactly `AllPasses` of the entries before them, from empty reports. Every device of the three worklists has a record per attribute of its category. |
| FixCond.LaterPasses | AssignConductor.py:328-349 | The by-phase and underground passes give exactly `PhaseAndUndergroundPasses` of the state they start from. They record every device of their worklists and keep earlier records. |
| FixCond.ListedFit | AssignConductor.py:319-349 | The sections of a worklist of indexed devices fit the attributes of their pass. |
| FixCond.ListedHolds | AssignConductor.py:44-73 | A worklist's devices are indexed, their sections fit the pass, and their entries hold a placeholder when the passes start. |
| FixCond.RefinedRecorded | AssignConductor.py:352-359 | A device recorded after the passes is still recorded after the refinement. |
| FixCond.IndexFromDevices | AssignConductor.py:313 | The index built from category-correct device lists files each device under its section, and every device carries its category's attributes. |
| FixCond.WorklistShapes | AssignConductor.py:313 | The first worklist holds single-ID overhead devices, the second by-phase ones, the third underground ones. |
| FixCond.PendingShape | AssignConductor.py:44-73 | A worklist built from a list of one category holds only devices of that category, each holding a placeholder in one of its attributes. |
| DriverSpec.Resolved | AssignConductor.py:196-264 | One call's ledger, from both walks over the entries as they stand. The device keeps its attribute names. The reports stay duplicate-free and only gain keys. New input-required keys are only for this section and the resolved attributes. Every resolved attribute has a record. |
| DriverSpec.ResolveAt | AssignConductor.py:182-266 | One call of the resolution on a section. Only that section's entry changes, and only in its IDs. Entries keep carrying their attributes. The reports only gain keys, and every resolved attribute has a record. New input-required keys are only for this section. Input-required keys stay resolvable. |
| DriverSpec.VisitEntry | AssignConductor.py:320-326 | A worklist turn changes IDs only, and input-required keys stay resolvable. |
| DriverSpec.Pass | AssignConductor.py:320-349 | A pass changes IDs only, and input-required keys stay resolvable. |
| DriverSpec.Refinement | AssignConductor.py:352-359 | The refinement changes IDs only. |
| DriverSpec.PhaseAndUndergroundPasses | AssignConductor.py:329-349 | The later passes keep the indexed sections and their attributes. Input-required keys stay resolvable. |
| DriverSpec.AllPasses | AssignConductor.py:316-349 | The three passes from empty reports keep the indexed sections and attributes. Every input-required key they file can be resolved again. |
| DriverSpec.RunOutcome | AssignConductor.py:313-359 | The whole run keeps the indexed sections and their attributes. |
| DriverSpec.PassPrefix | AssignConductor.py:320-326 | The pass over the first i + 1 sections is the pass over the first i, then the turn of section i. |
| DriverSpec.RefinementPrefix | AssignConductor.py:355-359 | The refinement of the first i + 1 keys is the refinement of the first i, then the resolution of key i. |
| DriverSpec.PassOutside | AssignConductor.py:320-349 | A pass leaves every section that is not on its worklist as it was. |
| DriverSpec.PassSkipsClean | AssignConductor.py:323-346 | A section with no placeholder in the pass's attributes when the pass starts is never changed by it. |
| DriverSpec.PassGrows | AssignConductor.py:320-349 | A pass removes no key from either report. |
| DriverSpec.PassChangesRecorded | AssignConductor.py:320-349 | A section whose entry a pass changed has a record per attribute of the pass. |
| DriverSpec.VisitRecords | AssignConductor.py:323-326 | A turn only adds keys, and records the section when it still holds a placeholder. |
| DriverSpec.PassRecords | AssignConductor.py:320-349 | Every worklist section that held a placeholder when the pass started ends it with a record per attribute: its own turn resolved it, or an earlier turn on the same section did. |
| DriverSpec.OffWorklist | AssignConductor.py:319-349 | A section whose category lacks the pass's first attribute is not on that pass's worklist. |
| DriverSpec.PassLeaves | AssignConductor.py:319-349 | When no category has the first attributes of both passes, a pass leaves the entries of a later worklist untouched, placeholders included. |
| DriverSpec.LaterRecords | AssignConductor.py:329-349 | The by-phase and underground passes only add keys. Each of their sections that held a placeholder when they started ends with a record per attribute. |
| DriverSpec.AllRecords | AssignConductor.py:319-349 | After the three passes, each listed section that held a placeholder at the start has a record per attribute of its pass. |
| DriverSpec.RecordedGrows | AssignConductor.py:319-359 | A section with records keeps them when the reports only gain keys. |
| DriverSpec.RefinementFiles | AssignConductor.py:352-359 | The refinement files a key as input-required only when it was already filed or is one of the keys it resolves. |
| DriverSpec.ResolveKeySettles | AssignConductor.py:355-359 | Resolving a key on its own attribute gives it a record and keeps every earlier key. |
| DriverSpec.RefinementSettles | AssignConductor.py:352-359 | The refinement only adds keys, and every key it resolves ends changed or input-required. |
## Left out

- `cyme_report` and the two reports it shows: rendering rows is output only. The model returns the two ordered reports instead.
- `SQLGeneration.py` is not part of this model. It is a separate import step.
- The CYME calls are not modelled:
  - `ListNetworks` becomes a list of circuit names;
  - `ListDevices` becomes the four device lists;
  - `NetworkIterator` becomes the `Traversal` parameter;
  - `QueryInfoDevice('DwKVAT', ...)` becomes the device's `dwKva`;
  - `GetSection` becomes the section ID.

  Their behaviour is taken as given, including the iteration order and depth annotation.
- The float conversion of the kVA query and floating-point rounding: loads are exact reals.
- Raising `ValueError` becomes a `Failed` result with the corresponding error.
- The `__main__` entry point.
- FixCond.FixCond: it requires each device list to hold devices of its own category that carry their category's attributes, which the CYME listing provides.
- FixCond.WorklistShapes: states only the category of each worklist entry. Membership and indexing are stated by ConductorIndex.GetConductors.
- Running the whole resolution a second time is not modelled. An attribute left needing input keeps the ID it held. That ID need not be a placeholder: a by-phase device is resolved on all five attributes as soon as one of them holds a placeholder, so an attribute that held a concrete ID can end up needing input too.
- ConductorIndex.Pending: it has no ensures of its own. The worklist it defines is characterised by ConductorIndex.PendingIndexed, ConductorIndex.PendingComplete and ConductorIndex.PendingDistinct.
