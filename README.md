# AttackFlow core, modelled in Dafny

AttackFlow is a kill-chain editor for MITRE ATT&CK. This project models its
deterministic core and proves properties of the model.

**The kill-chain visualizer (`KillChainVisualizer`).**

- The Unified Kill Chain taxonomy: three super-phases, IN, THROUGH and OUT, with 18 phases and their technique-id patterns.
- The inverted pattern index that the constructor builds.
- The four-tier classifier `mapTechniquesToPhases`:
  1. the exact id;
  2. the base id, which is the id before its first `.`;
  3. the first phase, in declaration order, whose pattern is a prefix of the id or equal to its base;
  4. a guessed phase from per-domain, first-match-wins tables of numeric ranges.
- The domain detector.
- The ATT&CK reference URL.
- The Navigator layer filter.
- The counts that `renderStats` and `exportData` report.

**The STIX 2.1 builder configuration.**

- The STIX identifier pattern, from section 2 "Common Data Types" of the OASIS STIX Version 2.1 standard.
- The catalogue of object definitions, merged from the SDO, SRO, SCO, marking and extension groups.
- The JSON schema of a bundle, with the per-type definitions that `buildSchemaDefinitions` writes into it.
- The two lookup functions.

**The data-extraction scripts.** They are modelled over records that have already been parsed.

- CAPEC and CWE extraction:
  - whitespace normalisation of mixed-content text;
  - the pattern, weakness and category dictionaries;
  - parent-to-children linking;
  - three inverted indexes;
  - stub weaknesses for CWEs that are referenced but missing.
- ATT&CK extraction:
  - the first-match helpers over external references and kill-chain phases;
  - the object loop over a bundle: skip rules, domain precedence, and first-wins techniques;
  - linking of mitigations and parent techniques;
  - the order in which `main` chains the bundle loop and the linking.
- The JSON sanitiser: the four-pass HTML stripper and the recursive value map.

**How the source is modelled.**

- A JavaScript plain object or Python dict is an insertion-ordered `Dict` (module `OrderedDict`): a key sequence plus a map.
- The mutable objects are classes with `modifies` clauses:
  - the visualizer;
  - the bundle schema;
  - the ATT&CK store, which holds the caller-supplied `techniques`, `mitigations` and `relationships`.
- Each loop is a method proved against a specification function.
- The properties the source promises are lemmas about those functions.

**Modules.**

- `Taxonomy`, `TechniqueIds`, `DomainDetector`, `PatternIndex`, `Classifier`, `PhaseStats`, `NavigatorLayer`, `AttackUrl` and `Visualizer` model `kill-chain-visualizer.js`.
- `StixId`, `StixCatalog`, `StixSchema` and `BundleSchema` model `stix-builder.config.js`.
- `MixedText`, `CapecRecords`, `CapecTables` and `CapecIndexes` model `scripts/extract-data.py`.
- `AttackObjects` and `AttackStore` model `scripts/extract-attack.py`.
- `HtmlSanitizer` models `scripts/sanitize-json.py`.
- `Wrappers`, `Chars`, `Seqs` and `OrderedDict` are shared.

## Model

| member | source | states |
|---|---|---|
| Taxonomy.PatternText | kill-chain-visualizer.js:58-303 | every declared technique pattern is `T` followed by four digits, five characters in all |
| Taxonomy.PatternTextValue | kill-chain-visualizer.js:58-303 | the four digits of a pattern read back as the pattern's number |
| Taxonomy.PatternTextInjective | kill-chain-visualizer.js:58-303 | two patterns with the same text are the same pattern |
| Taxonomy.SuperPhaseKeys | kill-chain-visualizer.js:58-303 | a super-phase declares one (super-phase, phase) key per phase, in declaration order |
| Taxonomy.DeclaredPhases | kill-chain-visualizer.js:58-303 | the taxonomy declares exactly 18 phases, listed in order: IN reconnaissance … OUT objectives |
| TechniqueIds.FirstIndex | kill-chain-visualizer.js:701 | the position of the first occurrence of a character, or the length when it is absent |
| TechniqueIds.BaseId | kill-chain-visualizer.js:701 | `techId.split('.')[0]` is the prefix before the first dot, and it contains no dot |
| TechniqueIds.SubId | kill-chain-visualizer.js:999 | the sub-technique part is present exactly when the id contains a dot |
| TechniqueIds.ReplaceFirst | kill-chain-visualizer.js:759 | `replace('T', '')` removes one character when it occurs, and otherwise changes nothing |
| TechniqueIds.NumericPart | kill-chain-visualizer.js:759-760 | for a well-formed id, the digits that `parseInt` reads are the base id without its `T`, and there is at least one digit |
| TechniqueIds.FirstIndexShift | kill-chain-visualizer.js:701 | dropping a leading non-dot character moves the first dot one place left |
| TechniqueIds.FirstIndexPrefix | kill-chain-visualizer.js:701 | the first dot of `a + "." + …` is at `|a|` when `a` has no dot |
| DomainDetector.AnyContains | kill-chain-visualizer.js:788 | `ranges.some(...)` is true exactly when some range holds the number |
| DomainDetector.IsEnterpriseTechnique | kill-chain-visualizer.js:783-789 | true exactly for 1001..1220, 1480..1500, 1530..1570 and 1595..1620 |
| DomainDetector.DetectDomain | kill-chain-visualizer.js:758-777 | the result is ICS exactly when the digit string starts with `0` or the number is in 800..899 |
| DomainDetector.MobileIntervals | kill-chain-visualizer.js:769-774 | outside ICS an id is mobile exactly for 1398..1448, 1471..1478, 1507..1533, 1575..1594 and 1621..1665; the enterprise exclusion applies only to the last range |
| DomainDetector.FirstMatch | kill-chain-visualizer.js:799-835 | the index of the first rule whose range holds the number; no earlier rule holds it |
| DomainDetector.FirstMatchAt | kill-chain-visualizer.js:799-835 | a rule that holds the number after rules that do not is the first match |
| DomainDetector.GuessPhaseFromId | kill-chain-visualizer.js:794-836 | the guess is the target of the first rule of the detected domain's table that holds the number, or `OUT/objectives` when none does |
| DomainDetector.TargetsDeclared | kill-chain-visualizer.js:794-836 | every rule target of the three tables, and the default, is a declared phase |
| DomainDetector.GuessIsDeclared | kill-chain-visualizer.js:739-747 | tier 4 always names a declared phase, so the push at line 742 always finds its list |
| DomainDetector.IcsLateralMovementShadowed | kill-chain-visualizer.js:799-808 | no ICS id is ever guessed as lateral movement; earlier rules cover the whole 812..886 range |
| DomainDetector.MobilePersistenceRange | kill-chain-visualizer.js:811-821 | a mobile id is guessed as persistence exactly for 1398..1402; the 1540..1541 rule never fires, because those numbers are not mobile |
| DomainDetector.MobilePersistenceNumbers | kill-chain-visualizer.js:812-815 | over the mobile numbers, the first mobile rule that matches is persistence exactly for 1398..1402 |
| DomainDetector.EnterpriseResourceDevelopmentRange | kill-chain-visualizer.js:825-826 | an enterprise id is guessed as resource development exactly for 1599..1608 |
| DomainDetector.GuessIcsT0840 | kill-chain-visualizer.js:800-802 | `T0840` is ICS and is guessed as delivery by the first rule, although the discovery range also holds 840 |
| DomainDetector.DomainOfSubTechnique | kill-chain-visualizer.js:758-796 | a sub-technique has its parent's number, domain and guessed phase |
| PatternIndex.PhaseSlots | kill-chain-visualizer.js:344-355 | one (pattern, phase) slot per pattern of the phase, in pattern order |
| PatternIndex.IndexAdd | kill-chain-visualizer.js:346-353 | adding a slot makes its pattern a key and changes no other key |
| PatternIndex.IndexExtendConcat | kill-chain-visualizer.js:343-356 | indexing `a + b` is indexing `a`, then `b` |
| PatternIndex.IndexOfIsExtend | kill-chain-visualizer.js:340-357 | the index of a slot list is the empty index extended by the slots |
| PatternIndex.EntriesFor | kill-chain-visualizer.js:340-357 | the entries of a pattern are exactly the phases of its slots |
| PatternIndex.IndexSpec | kill-chain-visualizer.js:340-357 | a pattern is a key exactly when some slot has it, and its list is the phases of its slots, in slot order, one per occurrence |
| PatternIndex.IndexSpecAt | kill-chain-visualizer.js:340-357 | the same, for one pattern |
| PatternIndex.EntriesAbsent | kill-chain-visualizer.js:340-357 | a pattern that no slot has has no entries |
| PatternIndex.EntriesNonEmpty | kill-chain-visualizer.js:346-349 | every key's entry list is non-empty |
| PatternIndex.PhasesSlotsStep | kill-chain-visualizer.js:344 | the slots of one more phase are appended at the end |
| PatternIndex.StructureSlotsStep | kill-chain-visualizer.js:343 | the slots of one more super-phase are appended at the end |
| PatternIndex.SlotsDeclared | kill-chain-visualizer.js:340-357 | every slot points to a declared phase |
| PatternIndex.PhasesSlotsDeclared | kill-chain-visualizer.js:344-355 | the slots of a super-phase point to its own phases |
| PatternIndex.SlotPatternsFive | kill-chain-visualizer.js:58-303 | every slot's pattern has five characters |
| PatternIndex.PhasesSlotsFive | kill-chain-visualizer.js:58-303 | the same, for the phases of one super-phase |
| PatternIndex.PatternIndexed | kill-chain-visualizer.js:340-357 | every pattern of every phase is a key of the built index, and its list contains that phase |
| PatternIndex.PhasesSlotsContain | kill-chain-visualizer.js:344-355 | a phase's slots are among those of its super-phase |
| PatternIndex.StructureSlotsContain | kill-chain-visualizer.js:343-356 | a super-phase's slots are among those of the taxonomy |
| Classifier.RefKeys | kill-chain-visualizer.js:707-708 | the (super-phase, phase) key of each index entry, in entry order |
| Classifier.FirstPatternSlot | kill-chain-visualizer.js:720-735 | the first slot, in declaration order, whose pattern is a prefix of the id or equals its base id |
| Classifier.PatternPhaseConcat | kill-chain-visualizer.js:720-735 | the first match in `a + b` is the first in `a`, or else the first in `b` |
| Classifier.ExactPrecedence | kill-chain-visualizer.js:705-716 | when the exact id is a key, the technique is pushed once per entry of that key and the base id is not consulted |
| Classifier.BaseFallback | kill-chain-visualizer.js:705-716 | when only the base id is a key, the technique is pushed once per entry of the base id |
| Classifier.PatternTierSingle | kill-chain-visualizer.js:719-736 | tier 3 runs only after tiers 1-2 miss, and pushes to exactly one phase: the first matching one in declaration order |
| Classifier.PatternTierSilentOnFiveCharBase | kill-chain-visualizer.js:719-736 | tier 3 never fires for an id whose base has five characters |
| Classifier.IndexDeclared | kill-chain-visualizer.js:340-357 | every index entry names a declared phase |
| Classifier.TargetsTotal | kill-chain-visualizer.js:739-747 | every well-formed id is pushed at least once, and only to declared phases |
| Classifier.EveryTechniqueAssigned | kill-chain-visualizer.js:700-748 | every input technique appears in the list of at least one declared phase |
| Classifier.ExpectedContains | kill-chain-visualizer.js:700-748 | a technique pushed to a phase appears in that phase's list |
| Classifier.ExpectedMembers | kill-chain-visualizer.js:700-748 | a phase's list holds only techniques that were pushed to that phase |
| Visualizer.IndexOfAppend | kill-chain-visualizer.js:346-353 | indexing one more slot is one `IndexAdd` |
| Visualizer.DeclaredKeysStep | kill-chain-visualizer.js:693-697 | one more super-phase appends its phase keys |
| Visualizer.FirstPatternAt | kill-chain-visualizer.js:720-735 | a matching slot after slots that do not match is the first match |
| Visualizer.PhasesPatternPhaseExtends | kill-chain-visualizer.js:721-733 | a match found among the first phases stays the match when more phases follow; `break` stops the search |
| Visualizer.StructurePatternPhaseExtends | kill-chain-visualizer.js:720-735 | the same across super-phases |
| Visualizer.UnchangedWhenNothingPushed | kill-chain-visualizer.js:719 | when tiers 1-2 push nothing, the mapping is unchanged |
| Visualizer.PushedOne | kill-chain-visualizer.js:724-728 | one push appends the entry to one list and leaves the others alone |
| Visualizer.ResultIsMapping | kill-chain-visualizer.js:673-675 | a mapping whose every list is as `Expected` describes is the mapping of the techniques |
| Visualizer.ExpectedStep | kill-chain-visualizer.js:700-748 | handling one more technique extends every list by that technique's pushes |
| Visualizer.TechniqueMapped | kill-chain-visualizer.js:700-748 | every technique appears in the list of its first target phase |
| Visualizer.CountPhaseLists | kill-chain-visualizer.js:1076-1086 | the loop computes the IN, THROUGH and OUT totals and the number of non-empty lists |
| Visualizer.KillChainVisualizer.constructor | kill-chain-visualizer.js:42-307 | sets the taxonomy, builds the index, and starts with no techniques |
| Visualizer.KillChainVisualizer.BuildTechniquePhaseMapping | kill-chain-visualizer.js:340-357 | the index built is the one `IndexSpec` describes; nothing else changes |
| Visualizer.KillChainVisualizer.AddSuperPhase | kill-chain-visualizer.js:343-356 | the index is extended by the slots of one super-phase |
| Visualizer.KillChainVisualizer.AddPhase | kill-chain-visualizer.js:344-355 | the index is extended by the slots of one phase |
| Visualizer.KillChainVisualizer.PushEntries | kill-chain-visualizer.js:707-713 | the entry is pushed once per index entry; `assigned` is set exactly when there was an entry |
| Visualizer.KillChainVisualizer.MatchInPhase | kill-chain-visualizer.js:722-731 | the first matching pattern of one phase |
| Visualizer.KillChainVisualizer.MatchInSuperPhase | kill-chain-visualizer.js:721-733 | the first matching phase of one super-phase |
| Visualizer.KillChainVisualizer.FindPatternPhase | kill-chain-visualizer.js:720-735 | the result is the tier-3 phase, the first match in declaration order |
| Visualizer.KillChainVisualizer.PushIndexed | kill-chain-visualizer.js:705-716 | tiers 1-2: pushes once per entry of the exact id, or else of the base id; `assigned` says whether anything was pushed |
| Visualizer.KillChainVisualizer.AssignTechnique | kill-chain-visualizer.js:700-747 | one technique is pushed to exactly `Targets`: tier 1-2 entries, else the tier-3 phase, else the guess |
| Visualizer.KillChainVisualizer.MapTechniquesToPhases | kill-chain-visualizer.js:685-751 | one list per declared phase, each holding the pushes in input order; all lists are empty on empty input; every technique appears in some list |
| Visualizer.KillChainVisualizer.AssignAll | kill-chain-visualizer.js:700-748 | the loop over the techniques leaves every list as `Expected` describes |
| Visualizer.KillChainVisualizer.InitialMapping | kill-chain-visualizer.js:686-697 | an empty list for exactly the declared phases |
| Visualizer.KillChainVisualizer.SetTechniques | kill-chain-visualizer.js:673-678 | stores the techniques and their mapping; the index is unchanged |
| Visualizer.KillChainVisualizer.RenderStats | kill-chain-visualizer.js:1071-1086 | total, per-super-phase and active-phase counts of the current mapping; the super-phase counts add up to at least the total; some phase is active exactly when there is a technique |
| Visualizer.KillChainVisualizer.ExportData | kill-chain-visualizer.js:1122-1133 | returns the techniques and mapping; the three counts add up to the number of pushes, which is at least the number of techniques |
| Visualizer.KillChainVisualizer.ParseNavigatorLayer | kill-chain-visualizer.js:365-398 | `{}` without a layer or technique list; otherwise one key per distinct enabled id, in first-occurrence order, each named by `DisplayName` |
| PhaseStats.ActivePhases | kill-chain-visualizer.js:1078 | the number of non-empty lists is at most the number of phases |
| PhaseStats.ExportedStats | kill-chain-visualizer.js:1127-1130 | IN + THROUGH + OUT equals the total length of all lists |
| PhaseStats.SuperPhasesPartition | kill-chain-visualizer.js:1080-1084 | each list is counted in exactly one super-phase |
| PhaseStats.ActivePhasesZero | kill-chain-visualizer.js:1078 | no phase is active exactly when every list is empty |
| PhaseStats.PhaseIds | kill-chain-visualizer.js:58-303 | the ids of a super-phase's phases, in declaration order |
| PhaseStats.KeysOf | kill-chain-visualizer.js:58-303 | the keys of a super-phase's phase ids |
| PhaseStats.SuperPhaseKeysOf | kill-chain-visualizer.js:58-303 | a super-phase's (super-phase, phase) keys are the keys of its phase ids |
| PhaseStats.DistinctGroups | kill-chain-visualizer.js:58-303 | within each super-phase of the taxonomy, no phase id is declared twice |
| PhaseStats.DistinctKeysOf | kill-chain-visualizer.js:58-303 | distinct phase ids give distinct keys |
| PhaseStats.DeclaredDistinct | kill-chain-visualizer.js:58-303 | the 18 declared keys are pairwise distinct |
| PhaseStats.SumCountsAppend | kill-chain-visualizer.js:1127-1130 | counting over one more push adds the count of that key |
| PhaseStats.CountOnce | kill-chain-visualizer.js:1127-1130 | a declared key occurs exactly once among the declared keys |
| PhaseStats.SumCountsLength | kill-chain-visualizer.js:1127-1130 | pushes to declared keys, counted over the distinct declared keys, add up to their number |
| PhaseStats.ExpectedTotalStep | kill-chain-visualizer.js:700-748 | one more technique adds its pushes to the total length |
| PhaseStats.ExpectedTotalIsPushes | kill-chain-visualizer.js:700-748 | over the declared phases, the lists hold exactly as many entries as there were pushes |
| PhaseStats.ExpectedTotalEmpty | kill-chain-visualizer.js:686-697 | no techniques, no entries |
| PhaseStats.TotalLengthOfMapping | kill-chain-visualizer.js:1076-1086 | the total length of a mapping's lists is the total of the expected lists |
| PhaseStats.PushesAtLeastOne | kill-chain-visualizer.js:739-747 | every technique is pushed at least once, so there are at least as many pushes as techniques |
| PhaseStats.MappingTotals | kill-chain-visualizer.js:1076-1130 | for a mapping: counts equal the pushes and are at least the technique count; some phase is active iff there is a technique; at most 18 phases are active |
| NavigatorLayer.DisplayName | kill-chain-visualizer.js:391-393 | the caller's name, else the built-in name, else `Technique <id>`; an empty name counts as missing, and the result is never empty |
| NavigatorLayer.EnabledIds | kill-chain-visualizer.js:377-381 | the enabled ids, in layer order |
| NavigatorLayer.EnabledIdsMembers | kill-chain-visualizer.js:377-381 | an id is listed exactly when some entry not marked `enabled: false` carries it |
| NavigatorLayer.Collect | kill-chain-visualizer.js:377-396 | the loop's dictionary; always an ordered dictionary |
| NavigatorLayer.CollectSpec | kill-chain-visualizer.js:365-398 | the keys are the distinct enabled ids in first-occurrence order, each named by `DisplayName` |
| NavigatorLayer.ParsedLayerKeys | kill-chain-visualizer.js:365-398 | an id is a key exactly when some enabled entry carries it |
| NavigatorLayer.DuplicateIgnored | kill-chain-visualizer.js:385-388 | a later entry for an id already present changes nothing |
| NavigatorLayer.DisabledIgnored | kill-chain-visualizer.js:379-381 | an entry with `enabled: false` changes nothing |
| NavigatorLayer.DistinctEnabledKept | kill-chain-visualizer.js:377-396 | distinct enabled ids are all kept, in layer order |
| AttackUrl.PadStart | kill-chain-visualizer.js:1010 | `padStart(n, c)`: the string is right-aligned in a result of length `max(|s|, n)`, filled with `c` |
| AttackUrl.Split | kill-chain-visualizer.js:998-999 | `split(c)` gives at least one piece, none containing `c` |
| AttackUrl.SplitCons | kill-chain-visualizer.js:998-999 | splitting at a first separator peels off the first piece |
| AttackUrl.SplitJoin | kill-chain-visualizer.js:1008-1011 | splitting a join of separator-free pieces gives the pieces back |
| AttackUrl.JoinAppend | kill-chain-visualizer.js:1008-1011 | joining a concatenation joins the parts with one separator |
| AttackUrl.DomainSegments | kill-chain-visualizer.js:1002-1006 | the domain paths `techniques`, `techniques/mobile` and `techniques/ics` as `/`-joined segments |
| AttackUrl.HostJoin | kill-chain-visualizer.js:1008 | `https://attack.mitre.org/` is its segments joined by `/`, plus a final `/` |
| AttackUrl.TemplateIsJoin | kill-chain-visualizer.js:1008-1011 | the URL template is the join of host, domain path, base id, optional padded sub-id and an empty last segment |
| AttackUrl.UrlIsJoin | kill-chain-visualizer.js:996-1013 | the URL is the `/`-join of those segments |
| AttackUrl.NoSeparatorAppend | kill-chain-visualizer.js:1008-1011 | separator-free segment lists stay separator-free when concatenated |
| AttackUrl.FixedSegmentsNoSlash | kill-chain-visualizer.js:1002-1008 | host and domain-path segments contain no `/` |
| AttackUrl.BaseNoSlash | kill-chain-visualizer.js:998 | a well-formed base id contains no `/` |
| AttackUrl.PadNoSlash | kill-chain-visualizer.js:1010 | a padded digit string contains no `/` |
| AttackUrl.UrlSegmentsNoSlash | kill-chain-visualizer.js:996-1013 | no URL segment contains `/` when the sub-id is digits |
| AttackUrl.TailNoSlash | kill-chain-visualizer.js:1008-1011 | base id, optional sub-id and empty end are `/`-free |
| AttackUrl.UrlRoundTrip | kill-chain-visualizer.js:996-1013 | splitting the URL at `/` gives host, domain path, base id, padded sub-id when present, and an empty last segment: the URL is decoded uniquely |
| AttackUrl.SubTechniqueParts | kill-chain-visualizer.js:998-999 | `T1566.002` has base `T1566` and sub-id `002` |
| AttackUrl.ShortSubTechniqueParts | kill-chain-visualizer.js:998-999 | `T1566.2` has base `T1566` and sub-id `2` |
| AttackUrl.SubTechniqueDomain | kill-chain-visualizer.js:997 | `T1566.002` is enterprise |
| AttackUrl.EnterpriseSubUrl | kill-chain-visualizer.js:996-1013 | an enterprise sub-technique URL is `…/techniques/<base>/<padded sub-id>/` |
| AttackUrl.SubTechniqueText | kill-chain-visualizer.js:1008-1010 | the parts of the `T1566.002` URL spell `https://attack.mitre.org/techniques/T1566/002/` |
| AttackUrl.UrlExampleSubTechnique | kill-chain-visualizer.js:996-1013 | `T1566.002` gives `https://attack.mitre.org/techniques/T1566/002/` |
| AttackUrl.PaddedDomain | kill-chain-visualizer.js:997 | `T1566.2` is enterprise |
| AttackUrl.UrlExamplePadded | kill-chain-visualizer.js:1009-1011 | `T1566.2` gives the same URL as `T1566.002`: the sub-id is padded to three digits |
| AttackUrl.PadExample | kill-chain-visualizer.js:1010 | `"2".padStart(3, "0")` is `002` |
| AttackUrl.IcsParts | kill-chain-visualizer.js:998-999 | `T0800` has base `T0800` and no sub-id |
| AttackUrl.IcsDomain | kill-chain-visualizer.js:763 | `T0800` is ICS |
| AttackUrl.IcsUrl | kill-chain-visualizer.js:1005-1008 | `T0800` uses the `techniques/ics` path |
| AttackUrl.IcsText | kill-chain-visualizer.js:1008 | those parts spell `https://attack.mitre.org/techniques/ics/T0800/` |
| AttackUrl.UrlExampleIcs | kill-chain-visualizer.js:996-1013 | `T0800` gives `https://attack.mitre.org/techniques/ics/T0800/` |
| AttackUrl.DecimalExample | kill-chain-visualizer.js:760 | `parseInt` of `1566` is 1566 |
| StixId.MatchesAtEndSound | stix-builder.config.js:5 | the regular expression, read as a language with some split point, is equivalent to the closed form with the split 38 characters from the end |
| StixId.IsStixIdentifier | stix-builder.config.js:5 | `STIX_ID_PATTERN.test(s)`: true exactly when `s` is a type, `--`, and a lower-case 8-4-4-4-12 hex UUID, with nothing after |
| StixId.ObjectTypeOf | stix-builder.config.js:5 | an accepted identifier is its object type, `--`, and a UUID |
| StixId.IdentifierRoundTrip | stix-builder.config.js:5 | a type and a UUID compose into an accepted identifier whose type reads back |
| StixId.UuidOfGroups | stix-builder.config.js:5 | five groups of lengths 8-4-4-4-12 joined by `-` form a UUID exactly when each group is lower-case hex |
| StixId.IdentifierParts | stix-builder.config.js:5 | `t + "--" + u`, with `u` of length 36, is accepted exactly when `t` is a type and `u` a UUID |
| StixId.SampleGroupsHex | stix-builder.config.js:5 | the groups of a sample UUID are hex runs of the right lengths |
| StixId.SampleUuidValid | stix-builder.config.js:5 | the sample UUID is valid |
| StixId.AttackPatternAccepted | stix-builder.config.js:5 | `attack-pattern--<uuid>` is accepted |
| StixId.DoubleHyphenInType | stix-builder.config.js:5 | the type part may itself contain `--` (`a--b--<uuid>` is accepted, with type `a--b`) |
| StixId.UpperCaseUuidInvalid | stix-builder.config.js:5 | an upper-case UUID is not a UUID |
| StixId.UpperCaseRefused | stix-builder.config.js:5 | an identifier with an upper-case UUID is refused |
| StixId.DigitTypeRefused | stix-builder.config.js:5 | a type starting with a digit is refused |
| StixSchema.SdoKeysDistinct | stix-builder.config.js:174-444 | the SDO group lists each type once |
| StixSchema.SdoDomain | stix-builder.config.js:174-444 | the SDO group holds exactly the listed types |
| StixSchema.SdoValid | stix-builder.config.js:174-444 | the SDO group is an ordered dictionary |
| StixSchema.ScoKeysDistinct | stix-builder.config.js:494-748 | the SCO group lists each type once |
| StixSchema.ScoDomain | stix-builder.config.js:494-748 | the SCO group holds exactly the listed types |
| StixSchema.ScoValid | stix-builder.config.js:494-748 | the SCO group is an ordered dictionary |
| StixSchema.SmallGroupsValid | stix-builder.config.js:446-760 | the SRO, marking and extension groups are ordered dictionaries |
| StixSchema.VocabularyKeysDistinct | stix-builder.config.js:30-152 | each vocabulary is declared once |
| StixSchema.VocabularyDomain | stix-builder.config.js:30-152 | the vocabulary table holds exactly the listed keys |
| StixSchema.VocabulariesValid | stix-builder.config.js:30-152 | the vocabulary table is an ordered dictionary |
| StixSchema.SdoSroDisjoint | stix-builder.config.js:174-492 | no SDO type is an SRO type |
| StixSchema.ScoDisjoint | stix-builder.config.js:174-748 | no SDO or SRO type is an SCO type |
| StixSchema.TailDisjoint | stix-builder.config.js:174-760 | the marking and extension types are new as well |
| StixSchema.AssignFive | stix-builder.config.js:762-769 | `Object.assign({}, a, b, c, d, e)` is an ordered dictionary |
| StixSchema.AssignFiveDisjoint | stix-builder.config.js:762-769 | for disjoint groups the merge lists the keys of `a` … `e` in order and maps each to its own group's value |
| StixSchema.AssignFiveLookup | stix-builder.config.js:762-769 | every group's entries survive the merge unchanged |
| StixSchema.GroupsChainDisjoint | stix-builder.config.js:762-769 | the five groups are pairwise disjoint |
| StixSchema.ObjectDefsMerge | stix-builder.config.js:762-769 | `STIX_OBJECT_DEFS` has exactly the group keys in group order, and no entry is overwritten |
| StixSchema.GetStixObjectDefinition | stix-builder.config.js:808-810 | the definition for a known type, `null` otherwise |
| StixSchema.GroupsMergeable | stix-builder.config.js:762-769 | the five groups are valid ordered dictionaries and pairwise disjoint |
| StixSchema.SdoDefinitionsFound | stix-builder.config.js:808-810 | every SDO type is looked up to its own definition |
| StixSchema.SroDefinitionsFound | stix-builder.config.js:808-810 | every SRO type is looked up to its own definition |
| StixSchema.ScoDefinitionsFound | stix-builder.config.js:808-810 | every SCO type is looked up to its own definition |
| StixSchema.MarkingDefinitionsFound | stix-builder.config.js:808-810 | `marking-definition` is looked up to its own definition |
| StixSchema.ExtensionDefinitionsFound | stix-builder.config.js:808-810 | `extension-definition` is looked up to its own definition |
| StixSchema.SdoCategories | stix-builder.config.js:174-444 | every SDO definition has category `sdo` |
| StixSchema.SroCategories | stix-builder.config.js:461-492 | every SRO definition has category `sro` |
| StixSchema.ScoCategories | stix-builder.config.js:494-748 | every SCO definition has category `sco` |
| StixSchema.MarkingCategories | stix-builder.config.js:750-760 | the marking definition has category `marking` |
| StixSchema.ExtensionCategories | stix-builder.config.js:446-459 | the extension definition has category `extension` |
| StixSchema.SdoCategoryFound | stix-builder.config.js:808-810 | looking up an SDO type gives a definition of category `sdo` |
| StixSchema.SroCategoryFound | stix-builder.config.js:808-810 | looking up an SRO type gives a definition of category `sro` |
| StixSchema.ScoCategoryFound | stix-builder.config.js:808-810 | looking up an SCO type gives a definition of category `sco` |
| StixSchema.MarkingCategoryFound | stix-builder.config.js:808-810 | looking up a marking type gives category `marking` |
| StixSchema.ExtensionCategoryFound | stix-builder.config.js:808-810 | looking up `extension-definition` gives category `extension` |
| StixSchema.BundleIsNotAnObject | stix-builder.config.js:808-810 | `bundle` has no object definition |
| StixSchema.BundleNotAKey | stix-builder.config.js:762-769 | `bundle` is not a key of the merged catalogue |
| StixSchema.GetVocabulary | stix-builder.config.js:812-814 | the list for a known vocabulary, `[]` otherwise |
| StixSchema.VocabulariesNonEmpty | stix-builder.config.js:30-152 | no declared vocabulary is empty |
| StixSchema.VocabulariesDeclared | stix-builder.config.js:812-814 | `getVocabulary` is non-empty exactly for the declared keys |
| StixSchema.TlpVocabulary | stix-builder.config.js:149-151 | `tlp-ov` is white, green, amber, red, amber+strict; the undeclared `kill-chain-ov` gives `[]` |
| StixSchema.RelationshipTypesKnown | stix-builder.config.js:139-148 | `mitigates` and `subtechnique-of` are relationship types of the vocabulary |
| StixSchema.KillChainPhasesCrossCheck | stix-builder.config.js:7-28 | the builder's 18 kill-chain phases match the visualizer's phase ids in order, except that position 7 is `command-and-control` here and `command-control` in the visualizer |
| BundleSchema.DefinitionFor | stix-builder.config.js:798-805 | an object schema requiring `type`, with properties `type`, `spec_version`, `id` in that order, `type` a `const` of the object type, and `id` carrying the identifier pattern |
| BundleSchema.AdmittedType | stix-builder.config.js:801-802 | the type a definition admits is its `type` constant |
| BundleSchema.DefinitionsOnto | stix-builder.config.js:797-805 | writing definitions keeps a valid ordered dictionary |
| BundleSchema.DefinitionsOntoEmpty | stix-builder.config.js:797-805 | for distinct types, the table lists the types in order, each with its own definition |
| BundleSchema.DefinitionAdmitsItsType | stix-builder.config.js:798-805 | the definition for `t` admits exactly `t` |
| BundleSchema.RefTo | stix-builder.config.js:783 | `#/definitions/` followed by the key |
| BundleSchema.OneOfRefs | stix-builder.config.js:783 | one reference per key, in key order |
| BundleSchema.Resolve | stix-builder.config.js:783 | a local reference resolves to the definition named after the prefix exactly when there is one |
| BundleSchema.ResolveRef | stix-builder.config.js:783 | the reference to a key resolves to that key's definition |
| BundleSchema.RefsResolve | stix-builder.config.js:783 | every reference of `oneOf` resolves to the definition of the type it names |
| BundleSchema.RefsDistinct | stix-builder.config.js:783 | `oneOf` has no duplicate reference |
| BundleSchema.OneAlternativePerType | stix-builder.config.js:783 | an object type is admitted by exactly one alternative of `oneOf` |
| BundleSchema.BundleSchema.constructor | stix-builder.config.js:771-788 | requires `type`, `id`, `spec_version`, `objects`, and starts with no definitions |
| BundleSchema.BundleSchema.BuildSchemaDefinitions | stix-builder.config.js:790-806 | writes one definition per object-definition key, in key order |
| BundleSchema.BundleProperties | stix-builder.config.js:776-786 | `type` is const `bundle`, `id` has the identifier pattern, `spec_version` is const `2.1`, and `objects` is an array of the `oneOf` references |
| BundleSchema.BuiltSchemaResolves | stix-builder.config.js:771-806 | after building, the definitions are exactly the catalogue's keys, and every `oneOf` alternative resolves, in order, to its type's definition with no duplicates |
| MixedText.Collapse | scripts/extract-data.py:35 | `re.sub(r'\s+', ' ', …)` is empty exactly for empty input, and ends in a space exactly when the input ends in whitespace |
| MixedText.TrimStart | scripts/extract-data.py:35 | `lstrip`: a suffix starting with a non-space, after only whitespace |
| MixedText.TrimEnd | scripts/extract-data.py:35 | `rstrip`: a prefix ending with a non-space, before only whitespace |
| MixedText.Visible | scripts/extract-data.py:35 | the non-whitespace characters, in order |
| MixedText.CollapseCollapsed | scripts/extract-data.py:35 | after collapsing, whitespace appears only as single spaces |
| MixedText.CollapseVisible | scripts/extract-data.py:35 | collapsing keeps the visible characters |
| MixedText.VisibleAppend | scripts/extract-data.py:35 | visible characters of a concatenation concatenate |
| MixedText.VisibleOfSpaces | scripts/extract-data.py:35 | whitespace has no visible characters |
| MixedText.TrimCollapsed | scripts/extract-data.py:35 | trimming collapsed text leaves it single-spaced: no leading, trailing or doubled spaces |
| MixedText.TrimStartVisible | scripts/extract-data.py:35 | trimming the start keeps the visible characters |
| MixedText.TrimEndVisible | scripts/extract-data.py:35 | trimming the end keeps the visible characters |
| MixedText.NormalizeShape | scripts/extract-data.py:35 | normalised text is single-spaced and keeps every visible character in order |
| MixedText.CollapseFixed | scripts/extract-data.py:35 | collapsed text is unchanged by collapsing |
| MixedText.NormalizeFixed | scripts/extract-data.py:35 | single-spaced text is unchanged by normalising |
| MixedText.NormalizeIdempotent | scripts/extract-data.py:35 | normalising twice is normalising once |
| MixedText.JoinedStep | scripts/extract-data.py:29-33 | one loop step appends `' ' + child_text` and, when the tail is non-empty, `' ' + tail` |
| MixedText.ElementText | scripts/extract-data.py:20-35 | the recursive text of an element is its normalised content |
| MixedText.JoinChildren | scripts/extract-data.py:26-33 | the loop joins the element's text with its children's texts and tails |
| MixedText.GetText | scripts/extract-data.py:20-35 | `get_text(None, d)` is `d`; otherwise the result is the element's text, single-spaced |
| CapecRecords.OrUnknown | scripts/extract-data.py:78-79 | `… or 'Unknown'` is never empty and keeps a non-empty value |
| CapecRecords.PrefixedIds | scripts/extract-data.py:82-88 | the prefixed ids are no more than the related ids |
| CapecRecords.PrefixedIdsMembers | scripts/extract-data.py:82-88 | a related id is listed, prefixed, exactly when it is non-empty |
| CapecRecords.NormalizeTechniqueId | scripts/extract-data.py:98-101 | an ATT&CK entry id always starts with `T`: kept as it is when it does, prefixed with `T` otherwise |
| CapecRecords.Techniques | scripts/extract-data.py:91-103 | the technique list has no empty id, and every id starts with `T` |
| CapecRecords.ParentOf | scripts/extract-data.py:106-114 | a parent, when there is one, is the prefixed id of a `ChildOf` relation that has a non-empty id |
| CapecRecords.FirstChildOfDecides | scripts/extract-data.py:108-114 | only the first `ChildOf` relation counts; when its id is empty, there is no parent even if a later one has an id |
| CapecRecords.PatternOf | scripts/extract-data.py:61-128 | a pattern keyed `CAPEC-` + ID, with no children yet, a description of at most 500 characters, and non-empty severity and likelihood |
| CapecRecords.WeaknessOf | scripts/extract-data.py:184-227 | a weakness keyed `CWE-` + ID, with no children yet and a description of at most 500 characters |
| CapecRecords.CollectPrefixed | scripts/extract-data.py:82-88 | the loop computes `PrefixedIds` |
| CapecRecords.CollectTechniques | scripts/extract-data.py:91-103 | the loop computes `Techniques` |
| CapecRecords.FindParent | scripts/extract-data.py:106-114 | the loop with `break` computes `ParentOf` |
| CapecRecords.BuildPattern | scripts/extract-data.py:61-128 | builds the record `PatternOf` describes |
| CapecRecords.BuildWeakness | scripts/extract-data.py:184-227 | builds the record `WeaknessOf` describes |
| CapecTables.PatternEntry | scripts/extract-data.py:66-116 | a pattern with an empty ID is skipped; otherwise it is stored under `CAPEC-` + ID |
| CapecTables.CapecCategoryEntry | scripts/extract-data.py:136-150 | a CAPEC category with an empty ID is skipped; otherwise it is stored under its ID, with prefixed member ids |
| CapecTables.WeaknessEntry | scripts/extract-data.py:189-218 | a weakness with an empty ID is skipped; otherwise it is stored under `CWE-` + ID |
| CapecTables.CweCategoryEntry | scripts/extract-data.py:235-241 | a CWE category with an empty ID is skipped; otherwise it is stored under its ID |
| CapecTables.LinkStep | scripts/extract-data.py:153-155 | one linking step keeps a valid dictionary |
| CapecTables.LinkOnto | scripts/extract-data.py:153-155 | linking over some keys keeps a valid dictionary |
| CapecTables.Linked | scripts/extract-data.py:152-155 | linking over all keys keeps a valid dictionary |
| CapecTables.LinkOntoSpec | scripts/extract-data.py:152-155 | linking keeps the keys and appends to each entry's `children` exactly the visited children whose parent it is, in visiting order |
| CapecTables.ChildrenAmongDistinct | scripts/extract-data.py:152-155 | children from distinct keys are distinct |
| CapecTables.ChildrenAmongMembers | scripts/extract-data.py:152-155 | `c` is a child of `p` exactly when `c` is visited, known and has parent `p` |
| CapecTables.LinkedChildren | scripts/extract-data.py:152-155 | after linking, `c` is in `p`'s children exactly when `c`'s parent is `p`, once each; nothing else about `p` changes |
| CapecTables.LinkChildren | scripts/extract-data.py:152-155 | the loop computes `Linked` |
| CapecTables.CapecPatterns | scripts/extract-data.py:38-158 | the patterns table of `extract_capec` is a valid ordered dictionary |
| CapecTables.CweWeaknesses | scripts/extract-data.py:161-249 | the weaknesses table of `extract_cwe` is a valid ordered dictionary |
| CapecTables.AddPatterns | scripts/extract-data.py:60-128 | the loop stores each pattern record in order |
| CapecTables.AddCapecCategories | scripts/extract-data.py:136-150 | the loop stores each category record in order |
| CapecTables.AddWeaknesses | scripts/extract-data.py:183-227 | the loop stores each weakness record in order |
| CapecTables.AddCweCategories | scripts/extract-data.py:235-241 | the loop stores each category record in order |
| CapecTables.ExtractCapec | scripts/extract-data.py:38-158 | files that do not parse are skipped; patterns and categories are stored in file order and then linked |
| CapecTables.ExtractCwe | scripts/extract-data.py:161-249 | the same for the CWE files |
| CapecTables.OntoValues | scripts/extract-data.py:116 | a property of every stored value holds of the table |
| CapecTables.WithChildren | scripts/extract-data.py:127 | replaces the `children` list |
| CapecTables.PrefixCancel | scripts/extract-data.py:69 | prefixed keys are equal exactly when the IDs are |
| CapecTables.PatternFromLastRecord | scripts/extract-data.py:116-128 | a later record with the same ID overwrites an earlier one; the stored entry is the last record's, with a description of at most 500 characters |
| CapecTables.PatternKeysProduced | scripts/extract-data.py:66-67 | a key that no record with a non-empty ID produces is absent |
| CapecTables.PatternChildren | scripts/extract-data.py:152-155 | in the CAPEC table, `c` is in the children of `p` exactly when `c`'s parent is `p`, once each |
| CapecTables.OntoChildOfKnown | scripts/extract-data.py:69 | pattern keys are never empty |
| CapecTables.WeaknessChildren | scripts/extract-data.py:243-246 | in the CWE table, `c` is in the children of `p` exactly when `c`'s parent is `p`, once each |
| CapecTables.WeaknessKeysNonEmpty | scripts/extract-data.py:192 | weakness keys are never empty |
| CapecIndexes.Lists | scripts/extract-data.py:258 | one (key, list) pair per pattern, in table order |
| CapecIndexes.NonEmptyLists | scripts/extract-data.py:258-260 | the mapping built from the non-empty lists is a valid ordered dictionary |
| CapecIndexes.NonEmptyKeysMembers | scripts/extract-data.py:258-260 | a key is kept exactly when its list is non-empty |
| CapecIndexes.NonEmptyListsSpec | scripts/extract-data.py:258-260 | the kept keys are in order, each mapped to its own list |
| CapecIndexes.BuildCapecToTechnique | scripts/extract-data.py:252-264 | the loop computes the non-empty technique lists |
| CapecIndexes.CapecToTechniqueSpec | scripts/extract-data.py:252-264 | a CAPEC is a key exactly when it has techniques, and it maps to its own list |
| CapecIndexes.AddSource | scripts/extract-data.py:273-276 | one pattern's pass keeps a valid dictionary |
| CapecIndexes.Inverted | scripts/extract-data.py:272-276 | the inverted index is a valid ordered dictionary |
| CapecIndexes.AddSourceSpec | scripts/extract-data.py:273-276 | a target becomes a key when listed, and gains the source once per listing |
| CapecIndexes.InvertedSpec | scripts/extract-data.py:267-279 | a target is a key exactly when some pattern lists it, and its list is its sources in table order |
| CapecIndexes.SourcesMembers | scripts/extract-data.py:272-276 | `c` is a source of `t` exactly when `c`'s list contains `t` |
| CapecIndexes.InvertIndex | scripts/extract-data.py:267-279 | the loop computes `Inverted` |
| CapecIndexes.BuildTechniqueToCapec | scripts/extract-data.py:267-279 | inverts the technique lists |
| CapecIndexes.BuildCweToCapec | scripts/extract-data.py:282-294 | inverts the CWE lists |
| CapecIndexes.IndexInverts | scripts/extract-data.py:267-294 | `c ∈ mapping[t]` exactly when `t` is in `c`'s list; keys are exactly the targets listed somewhere; sources keep CAPEC order |
| CapecIndexes.ReplaceAbsent | scripts/extract-data.py:318 | `replace` of an absent pattern changes nothing |
| CapecIndexes.Stub | scripts/extract-data.py:316-325 | a stub keyed by the CWE id, with no CAPECs, no parent and no children |
| CapecIndexes.StubName | scripts/extract-data.py:318 | the stub for `CWE-n` is named `CWE n` |
| CapecIndexes.WithCapecs | scripts/extract-data.py:331-332 | replaces the `capecs` list |
| CapecIndexes.Referenced | scripts/extract-data.py:302-305 | the set of CWEs some CAPEC lists |
| CapecIndexes.AddCapec | scripts/extract-data.py:328-332 | one pattern's pass touches only the stubs |
| CapecIndexes.AddCapecs | scripts/extract-data.py:328-332 | the pass over all patterns touches only the stubs |
| CapecIndexes.AddCapecSpec | scripts/extract-data.py:330-332 | a stub gains a citing CAPEC once, and only when it is not already listed |
| CapecIndexes.AddCapecsSpec | scripts/extract-data.py:328-332 | a stub ends with the duplicate-free list of its citing CAPECs |
| CapecIndexes.StubCapecs | scripts/extract-data.py:328-332 | that list has no duplicate, and holds exactly the CAPECs that reference the CWE |
| CapecIndexes.CollectReferenced | scripts/extract-data.py:302-305 | the loop computes `Referenced` |
| CapecIndexes.AddStubs | scripts/extract-data.py:314-325 | existing weaknesses are kept in place; exactly the missing CWEs are added, as stubs |
| CapecIndexes.LinkStubCapecs | scripts/extract-data.py:327-332 | the loop computes `AddCapecs` |
| CapecIndexes.AddMissingCwes | scripts/extract-data.py:297-338 | every referenced CWE becomes a key; existing weaknesses are unchanged and keep their order; each stub's `capecs` is the duplicate-free list of citing CAPECs |
| AttackObjects.ExternalIdFirst | scripts/extract-attack.py:14-19 | the `external_id` of the first `mitre-attack` reference, or `None` when there is none |
| AttackObjects.ExtractExternalId | scripts/extract-attack.py:14-19 | the loop computes `ExternalId` |
| AttackObjects.MitigationIdFirst | scripts/extract-attack.py:22-29 | the first `mitre-attack` id that starts with `M`, skipping `mitre-attack` references whose id does not; `None` when there is none |
| AttackObjects.ExtractMitigationId | scripts/extract-attack.py:22-29 | the loop computes `MitigationId` |
| AttackObjects.ReferenceOf | scripts/extract-attack.py:36-41 | a kept reference has its non-empty url, and a description of at most 200 characters |
| AttackObjects.WithUrlsSpec | scripts/extract-attack.py:35-41 | only references with a url are kept, in order |
| AttackObjects.ReferencesSpec | scripts/extract-attack.py:32-42 | at most `limit` references, taken from the first `limit` only; each has a url and a short description |
| AttackObjects.ExtractReferences | scripts/extract-attack.py:32-42 | the loop computes `References` |
| AttackObjects.Tactics | scripts/extract-attack.py:45-51 | no more tactics than phases |
| AttackObjects.TacticsMembers | scripts/extract-attack.py:45-51 | a name is listed exactly when some `mitre-attack` phase has it |
| AttackObjects.TacticsAppend | scripts/extract-attack.py:48-50 | the tactics of a concatenation concatenate, so order is kept |
| AttackObjects.ExtractTactics | scripts/extract-attack.py:45-51 | the loop computes `Tactics` |
| AttackStore.Clip | scripts/extract-attack.py:95 | `(s or '')[:n]` has at most `n` characters |
| AttackStore.DomainOf | scripts/extract-attack.py:79-87 | enterprise, then mobile, then ics, with enterprise by default |
| AttackStore.TechniqueOf | scripts/extract-attack.py:91-105 | the stored technique: description at most 3000 characters, detection at most 2000, at most 5 references, no parent and no mitigations yet |
| AttackStore.TechniqueEntry | scripts/extract-attack.py:69-106 | a technique is added exactly for a non-deprecated, non-revoked attack-pattern with a non-empty external id |
| AttackStore.MitigationEntry | scripts/extract-attack.py:108-117 | a mitigation is added exactly for a non-skipped course-of-action with an `M` id, keyed by its STIX id |
| AttackStore.RelationshipOf | scripts/extract-attack.py:119-128 | a relationship is kept exactly when it is not skipped and its type is `mitigates` or `subtechnique-of` |
| AttackStore.RelationshipsOfAppend | scripts/extract-attack.py:119-128 | relationships are appended in object order |
| AttackStore.RelationshipsOfSpec | scripts/extract-attack.py:119-128 | each kept relationship comes from an object, has a relevant type and a description of at most 1000 characters |
| AttackStore.TechniquesFirstWins | scripts/extract-attack.py:89-106 | the first occurrence of an external id wins, across bundles |
| AttackStore.TechniquesKeepStixIds | scripts/extract-attack.py:91-93 | every stored technique carries its attack-pattern's STIX id, so `resolve_relationships` can read it |
| AttackStore.AttackData.constructor | scripts/extract-attack.py:201-203 | starts with empty collections |
| AttackStore.AttackData.ProcessStixBundle | scripts/extract-attack.py:54-130 | techniques first-wins, mitigations last-wins, relationships appended; every technique still carries its STIX id |
| AttackStore.AttackData.ProcessObject | scripts/extract-attack.py:66-128 | one object's contribution |
| AttackStore.AttackData.ResolveRelationships | scripts/extract-attack.py:133-178 | links mitigations and parents, then strips the STIX ids; mitigations and relationships are unchanged |
| AttackStore.TechniquesAfter | scripts/extract-attack.py:206-207 | the techniques after every bundle, each with its STIX id |
| AttackStore.MitigationsAfter | scripts/extract-attack.py:206-207 | the mitigations after every bundle |
| AttackStore.RelationshipsAfter | scripts/extract-attack.py:206-207 | the relationships after every bundle, all of a relevant type with a short description |
| AttackStore.ExtractAttack | scripts/extract-attack.py:200-210 | `main`'s extraction: the bundles processed in order from empty collections, then resolved; the result has the keys of the collected techniques, linked and without STIX ids |
| AttackStore.StixIndexOver | scripts/extract-attack.py:138-140 | each STIX id maps to a technique with that STIX id |
| AttackStore.StixIndexSpec | scripts/extract-attack.py:138-140 | every technique's STIX id is indexed, to a technique with that STIX id |
| AttackStore.StixIndexOverHas | scripts/extract-attack.py:138-140 | a visited technique's STIX id is indexed |
| AttackStore.BuildStixIndex | scripts/extract-attack.py:138-140 | the loop computes `StixIndex` |
| AttackStore.LinkOf | scripts/extract-attack.py:156-160 | the link has the mitigation's id and name, and the relationship's description if non-empty, else the mitigation's |
| AttackStore.LinkStep | scripts/extract-attack.py:145-172 | one relationship keeps the technique keys |
| AttackStore.LinkAll | scripts/extract-attack.py:145-172 | all relationships keep the technique keys |
| AttackStore.ApplyRelationships | scripts/extract-attack.py:145-172 | the loop computes `LinkAll` |
| AttackStore.Linked | scripts/extract-attack.py:156-171 | appends links and sets the parent |
| AttackStore.LinkAllTechnique | scripts/extract-attack.py:145-172 | each technique gets exactly the links of the relationships that mitigate it, and the parent from the last `subtechnique-of` |
| AttackStore.LinkStepTechnique | scripts/extract-attack.py:146-172 | one relationship changes a technique only as `Linked` says |
| AttackStore.LinkedTwice | scripts/extract-attack.py:156-171 | linking twice is linking once with both link lists |
| AttackStore.MitigationLinksMembers | scripts/extract-attack.py:146-161 | a link is added exactly when both ends are known and the relationship mitigates the technique |
| AttackStore.ParentAfterSource | scripts/extract-attack.py:163-172 | the parent is unchanged unless a `subtechnique-of` relationship with both ends known names the technique, and it is then that relationship's target |
| AttackStore.StripStixIds | scripts/extract-attack.py:176-178 | no technique keeps `stixId`; nothing else changes |
| AttackStore.ResolvedTechnique | scripts/extract-attack.py:133-178 | after `resolve_relationships`, each technique keeps its key and fields, has no `stixId`, and carries its links and parent |
| AttackStore.RemoveStixIds | scripts/extract-attack.py:176-178 | the loop computes `StripStixIds` |
| HtmlSanitizer.WordEnd | scripts/sanitize-json.py:24 | the end of the longest `\w+` run |
| HtmlSanitizer.SpaceEnd | scripts/sanitize-json.py:27 | the end of the longest `\s*` run |
| HtmlSanitizer.IndexFrom | scripts/sanitize-json.py:24 | the first occurrence of a character from a position, or none |
| HtmlSanitizer.PairedTag | scripts/sanitize-json.py:24 | a paired-tag match at the start, when there is one, has content without `<` |
| HtmlSanitizer.SelfClosingTag | scripts/sanitize-json.py:27 | a self-closing tag match starts at `<` |
| HtmlSanitizer.AnyTag | scripts/sanitize-json.py:30 | a remaining-tag match starts at `<` |
| HtmlSanitizer.ReplaceChar | scripts/sanitize-json.py:33 | `replace` removes the character when the replacement does not contain it, and introduces no new characters |
| HtmlSanitizer.StripHtmlTags | scripts/sanitize-json.py:17-35 | the output contains no `<` and no `>` |
| HtmlSanitizer.PassesWithoutLt | scripts/sanitize-json.py:24-30 | text without `<` passes the three regex passes unchanged |
| HtmlSanitizer.PlainTextUnchanged | scripts/sanitize-json.py:24-33 | text with neither `<` nor `>` is returned unchanged |
| HtmlSanitizer.StripHtmlTagsIdempotent | scripts/sanitize-json.py:17-35 | stripping twice is stripping once |
| HtmlSanitizer.ReplaceStepDeletes | scripts/sanitize-json.py:24 | keeping a slice of a match and dropping the rest only deletes |
| HtmlSanitizer.CopyStepDeletes | scripts/sanitize-json.py:24-30 | copying one character only deletes |
| HtmlSanitizer.PairedPassDeletes | scripts/sanitize-json.py:24 | pass 1 only deletes characters |
| HtmlSanitizer.SelfClosingPassDeletes | scripts/sanitize-json.py:27 | pass 2 only deletes characters |
| HtmlSanitizer.AnyTagPassDeletes | scripts/sanitize-json.py:30 | pass 3 only deletes characters |
| HtmlSanitizer.PassesDelete | scripts/sanitize-json.py:24-30 | the text before escaping is a subsequence of the input |
| HtmlSanitizer.PairedTagMatch | scripts/sanitize-json.py:24 | `<name>content</name>` is matched whole, with the content as group 2 |
| HtmlSanitizer.PairedTagReduced | scripts/sanitize-json.py:22-24 | a paired tag whose content has no `<` reduces to its content, e.g. `<code>x</code>` gives `x` |
| HtmlSanitizer.StripHtmlTagsValue | scripts/sanitize-json.py:19-20 | a non-string is returned unchanged; a string loses every angle bracket |
| HtmlSanitizer.SanitizeValue | scripts/sanitize-json.py:38-47 | strings are stripped; lists keep their length; dicts keep their keys in order; other values are unchanged |
| HtmlSanitizer.SanitizedIsClean | scripts/sanitize-json.py:38-47 | no string anywhere in the result holds `<` or `>` |
| HtmlSanitizer.CleanUnchanged | scripts/sanitize-json.py:38-47 | a clean value is returned unchanged |
| HtmlSanitizer.SanitizeIdempotent | scripts/sanitize-json.py:38-47 | sanitising twice is sanitising once |
| OrderedDict.Empty | scripts/extract-data.py:41 | `{}` has no keys |
| OrderedDict.Entries | kill-chain-visualizer.js:700 | `Object.entries`: the pairs in key order |
| OrderedDict.PairKeys | stix-builder.config.js:762-769 | the keys of a pair list, in order |
| OrderedDict.PutAll | stix-builder.config.js:762-769 | assigning pairs in order keeps a valid dictionary |
| OrderedDict.Assign | stix-builder.config.js:762-769 | `Object.assign` keeps a valid dictionary |
| OrderedDict.PutAllFresh | stix-builder.config.js:762-769 | assigning new, distinct keys appends them in order and keeps the old entries |
| OrderedDict.PutAllFreshKeys | stix-builder.config.js:762-769 | the keys part of that |
| OrderedDict.PutAllMembers | stix-builder.config.js:762-769 | the keys after assigning are the old ones and the assigned ones |
| OrderedDict.PutAllFreshValues | stix-builder.config.js:762-769 | the values part of `PutAllFresh` |
| OrderedDict.AssignDisjoint | stix-builder.config.js:762-769 | `Object.assign` of a disjoint source appends its keys and unions the maps |
| OrderedDict.Onto | scripts/extract-data.py:116 | `d[key] = value` for each record keeps a valid dictionary |
| OrderedDict.OntoKeys | scripts/extract-data.py:116 | the keys are the distinct record keys in first-occurrence order |
| OrderedDict.OntoAppend | scripts/extract-data.py:44-128 | storing two record lists is storing them one after the other |
| OrderedDict.OntoLast | scripts/extract-data.py:116 | the last record for a key wins |
| OrderedDict.OntoOnlyProduced | scripts/extract-data.py:116 | only produced keys are added |
| OrderedDict.OntoFirst | scripts/extract-attack.py:90-91 | the first-wins store keeps a valid dictionary |
| OrderedDict.OntoFirstKeeps | scripts/extract-attack.py:90-91 | existing entries and their order are kept; the keys are the old ones and the produced ones |
| OrderedDict.OntoFirstWins | scripts/extract-attack.py:90-91 | the first record for a new key wins |
| OrderedDict.OntoFirstAbsent | scripts/extract-attack.py:90-91 | only produced keys are added |
| OrderedDict.OntoFirstAppend | scripts/extract-attack.py:54-130 | processing two bundles is processing them one after the other |
| Seqs.Take | scripts/extract-data.py:73 | `s[:n]` is a prefix of at most `n` elements, all of `s` when it is short |

## Left out

- XML parsing, JSON loading and dumping, and all file I/O: `ET.parse`, `json.load`/`json.dump`, `glob`, `argparse`, `resolve_paths`, `load_config_paths` and `sanitize_json_file`. The scripts' logic is modelled over already-parsed records. A file that does not parse is the `CapecParseError`/`CweParseError` case.
- The `print` counters of the scripts. They only feed console messages.
- The visualizer's DOM, CSS and event code, and the HTML that `renderStats` writes. This is browser I/O; only the counting is modelled.
- The in-place `localeCompare` sort at kill-chain-visualizer.js:938. It runs during rendering, and the model makes no claim that a phase list is sorted.
- `getTechniqueName` (kill-chain-visualizer.js:406-667) is a static name table. It is a map parameter of `ParseNavigatorLayer`.
- The `domain` that `parseNavigatorLayer` reads (line 374) is never used, so nothing depends on it.
- Malformed technique ids. They are excluded by a `requires`: the base id is `T` followed by digits. `NaN` from `parseInt` and prototype keys such as `constructor` in the plain-object index are not modelled.
- Visualizer.KillChainVisualizer.RenderStats and Visualizer.KillChainVisualizer.ExportData require that `setTechniques` has run. Before that, `mappedTechniques` is unset and the source throws a `TypeError` at `Object.entries(this.mappedTechniques)` (line 1076) or `this.mappedTechniques.IN` (line 1128). The model excludes that call order by `requires mappedTechniques.Some?`.
- StixSchema.GetStixObjectDefinition and StixSchema.GetVocabulary treat the catalogues as plain maps. For a name inherited from `Object.prototype`, such as `constructor`, `toString` or `__proto__`, the source's `STIX_OBJECT_DEFS[type] || null` and `STIX_VOCABULARIES[key] || []` return the inherited member. The model returns `None` and `[]`.
- JavaScript truthiness is modelled only where it matters. The index lookup tests for a key, because every list in the index is non-empty. A technique name is a string.
- `\w` and `\s` in the sanitiser and in `get_text` are ASCII approximations, not Python's Unicode classes. `\s` is taken as space, `\t`…`\r` and `\x1c`…`\x1f`.
- The field descriptors of the STIX catalogue (labels, field types, descriptions) are reduced to each definition's category and field keys. `$schema`, `title` and the top-level `type: 'object'` of `STIX_SCHEMA` are fixed strings and are not modelled.
- stix-config.js is not part of this model. It is a static catalogue whose helpers are one-line lookups.
- config.js is not part of this model. It only sets CSS variables.
- Python's `dict.get` with an explicit `null` value:
  - A null field is treated as absent.
  - `id`, `source_ref`, `target_ref`, `phase_name` and `kill_chain_name` are plain strings, since STIX requires them.
  - `x_mitre_is_subtechnique` and `x_mitre_platforms` are typed values that are copied through.
- JSON numbers in `sanitize_value` are integers. The sanitiser never changes them.
- CapecIndexes.AddMissingCwes: the order in which stub keys are appended follows Python's set iteration order. The model states the key set and the stub values, and that existing keys keep their positions. It does not state the order of the new keys.
- CapecIndexes.AddMissingCwes: `cwe_data` is mutated in place in the source. Here the updated weaknesses table is returned.
- HtmlSanitizer.SanitizeValue: list elements and dict values are stated through `SanitizedIsClean`, `CleanUnchanged` and `SanitizeIdempotent`, not elementwise in its own contract.
