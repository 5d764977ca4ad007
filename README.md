# A verified model of the cppagent XML printer, data item and test string helpers

This project models three parts of the MTConnect C++ agent (cppagent) in Dafny and proves properties about them.

- **The XML printer** (`src/xml_printer.cpp`) turns the agent's state into MTConnect documents: Error, Streams, Assets and the cutting tool assets. The libxml2 text writer it drives is modelled as an append-only trace of events: `Open(name)`, `Attr(key, value)`, `Text(escaped)`, `Raw(s)`, `Close`, the stylesheet `Instruction` and the XML `Declaration`. Writer failure is sticky. Every entry point returns either the full trace or the empty document, which is what the C++ returns after it catches an error. Each printing method is proved against a function that gives its exact event sequence. Lemmas about those functions then prove the promised properties:
  - the three-step choice of `xsi:schemaLocation`;
  - which header attributes appear for each document kind;
  - the AutoElement open/close state machine;
  - the regrouping of a flat observation list into DeviceStream, ComponentStream and category elements: each observation is written inside the elements of its own device, component and category, and a list that keeps each device's and each component's observations together opens one stream for each;
  - the observation body dispatch;
  - references gated on the schema version;
  - every stored cutting tool value printed exactly once;
  - balanced start and end tags throughout.
- **The data item** (`agent/data_item.cpp`) is a class with constant attributes and a mutable conversion memo. The model covers:
  - the constructor's attribute mapping, `getAttributes`, `hasName` and `getCamelType`;
  - the memoised `conversionRequired` / `convertValue` state machine;
  - the `simpleFactor` unit table.

  Factors are exact reals.
- **The test string helpers** (`test/test_globals.cpp`) `trim`, `fillAttribute` and `fillErrorText` are methods that edit a string. `trim` and `fillErrorText` are proved equal to a reference definition whose properties are proved as lemmas; `fillAttribute` states its result directly in its contract: the value is placed between the quotes of the first empty `attribute=""`, and the text is unchanged when there is none.

Files:

| file | contents |
|---|---|
| `strings.dfy` | `Option`, and the std::string facilities the agent uses: `operator<`, tolower/toupper, find, decimal rendering |
| `ordered_maps.dfy` | std::map / std::set of strings as strictly ascending association lists |
| `writer.dfy` | the writer trace, failure containment, nesting and balance |
| `elements.dfy` | addAttribute, both addAttributes, addSimpleElement, the AutoElement class |
| `namespaces.dfy` | the namespace registries and the schema location choice |
| `headers.dfy` | initXmlDoc's preamble and Header element |
| `observations.dfy` | addObservation |
| `samples.dfy` | printSample's regrouping loop |
| `probe.dfy` | child naming, Compositions, References and Filters of the Devices document |
| `assets.dfy` | printAssets' body and printAssetNode |
| `cutting_tools.dfy` | the cutting tool printers |
| `printer.dfy` | the XmlPrinter class and its entry points |
| `data_item.dfy` | the DataItem class and unit conversion |
| `test_globals.dfy` | trim, fillAttribute, fillErrorText |

## Model

| member | source | states |
|---|---|---|
| Strings.LowerAll | agent/data_item.cpp:213 | lower-casing keeps the length and maps every character through tolower |
| Strings.NatToStringRoundTrip | src/xml_printer.cpp:1185-1187 | the decimal rendering of any 64-bit sequence number reads back as the same number |
| Strings.NatToStringInjective | src/xml_printer.cpp:1164-1187 | different numbers never get the same rendering |
| OrderedMaps.Insert | src/xml_printer.cpp:113-122 | std::map::insert keeps keys strictly ascending, adds the key, and leaves the map unchanged when the key is already present |
| OrderedMaps.GetAfterInsert | src/xml_printer.cpp:113-122 | after an insert a key reads its old value if it had one, the new value if it was absent, and every other key reads as before |
| OrderedMaps.SetInsert | src/xml_printer.cpp:1239-1241 | std::set::insert keeps the set ascending and adds exactly the new element |
| OrderedMaps.SetErase | src/xml_printer.cpp:1213-1214 | std::set::erase removes exactly the given element |
| OrderedMaps.AscendingUnique | src/xml_printer.cpp:1275-1281 | a std::set is determined by its elements |
| XmlWriter.Writer.constructor | src/xml_printer.cpp:60-69 | a new writer has recorded nothing, has nothing open and has not failed |
| XmlWriter.Writer.Write | src/xml_printer.cpp:322-330 | one writer call advances the state by one Emit |
| XmlWriter.Writer.GetContent | src/xml_printer.cpp:90-99 | ending the document closes what is open and yields the recorded events, or nothing after a failure |
| XmlWriter.EmitAllRecords | src/xml_printer.cpp:413-427 | a run of calls records exactly its events unless some call is refused or the buffer runs out, and then the writer is failed |
| XmlWriter.DocumentAllOrNothing | src/xml_printer.cpp:411-437 | an entry point's result is the complete run of calls or the empty string, and it is empty exactly when a call was refused |
| XmlWriter.BalancedDocument | src/xml_printer.cpp:90-99 | for balanced calls, ending the document adds no end tag |
| XmlWriter.OpenDepth | src/xml_printer.cpp:322-330 | while the writer has not failed, its open elements are exactly those the events leave open |
| XmlWriter.WriterOpenNames | src/xml_printer.cpp:322-330 | while the writer has not failed, the names it holds open are those the events leave open: each start tag pushes its name, each end tag pops the innermost |
| XmlWriter.BalancedKeepsStack | src/xml_printer.cpp:386-405 | a balanced run of calls, such as one whole element, leaves the names open around it unchanged |
| XmlElements.MapAttributesWritten | src/xml_printer.cpp:298-308 | addAttributes over a map writes an entry exactly when its value is non-empty |
| XmlElements.ListAttributesWritten | src/xml_printer.cpp:310-320 | addAttributes over an AttributeList writes an entry exactly when it has a value or is forced |
| XmlElements.SimpleElementBalanced | src/xml_printer.cpp:386-405 | a simple element is one balanced element |
| XmlElements.ResetDepth | src/xml_printer.cpp:348-364 | reset with the same (name, key) writes nothing; otherwise the open-element count moves from the old name's to the new name's, and reset never closes more than its own element |
| XmlElements.AddAttribute | src/xml_printer.cpp:290-296 | writes the attribute only when its value is non-empty |
| XmlElements.AddAttributes | src/xml_printer.cpp:298-308 | writes the map's non-empty entries in key order |
| XmlElements.AddAttributeList | src/xml_printer.cpp:310-320 | writes the list's entries that have a value or are forced, in list order |
| XmlElements.AddSimpleElement | src/xml_printer.cpp:386-405 | the element, its non-empty attributes, the escaped or raw body when non-empty, its end tag |
| XmlElements.AutoElement.Idle | src/xml_printer.cpp:335-337 | a guard holding nothing writes nothing |
| XmlElements.AutoElement.constructor | src/xml_printer.cpp:338-347 | opens the named element at once and remembers name and key |
| XmlElements.AutoElement.Reset | src/xml_printer.cpp:348-364 | returns true exactly when name or key changes; then closes the old element if there was one, opens the new one if named, and stores the pair |
| XmlElements.AutoElement.Finish | src/xml_printer.cpp:365-369 | the destructor closes the element only when one is open |
| Namespaces.LookupMeaning | src/xml_printer.cpp:129-145 | a lookup returns the registered URN and location, and "" for an unknown prefix |
| Namespaces.AddThenLookup | src/xml_printer.cpp:113-122 | adding a prefix that already exists keeps the old entry; every other prefix reads as before |
| Namespaces.FirstLocationIsFirst | src/xml_printer.cpp:1122-1135 | the location found is "urn location" of the first non-"m" entry with a location, in ascending prefix order |
| Namespaces.MtcLocationOfM | src/xml_printer.cpp:1136-1140 | the fallback location is the MTConnect URN with the "m" entry's location, when that is set |
| Namespaces.SchemaLocationFromFirst | src/xml_printer.cpp:1130-1134 | first step: the first other namespace with a location supplies the schema location |
| Namespaces.SchemaLocationFromM | src/xml_printer.cpp:1144-1145 | second step: otherwise the MTConnect URN with the "m" entry's location |
| Namespaces.SchemaLocationDefault | src/xml_printer.cpp:1146-1148 | third step: otherwise the schema published at schemas.mtconnect.org for the kind and version |
| Namespaces.NamespaceDeclared | src/xml_printer.cpp:1122-1129 | xmlns:prefix is declared exactly for registered prefixes other than "m" that have a URN |
| Headers.HasAttrSingle | src/xml_printer.cpp:290-296 | an attribute with an empty value is never written |
| Headers.HeaderKeysByKind | src/xml_printer.cpp:1171-1188 | assetBufferSize and assetCount appear only for Devices and Assets; bufferSize for Devices, Error and Streams; the sequence numbers only for Streams |
| Headers.HeaderKeyPresence | src/xml_printer.cpp:1171-1188 | the same presence rules, one key at a time |
| Headers.SequenceNumbersExact | src/xml_printer.cpp:1182-1188 | a Streams header writes the three sequence numbers as decimals that read back exactly |
| Headers.StylesheetBeforeRoot | src/xml_printer.cpp:1099-1110 | a stylesheet instruction sits between the declaration and the root exactly when a style is set |
| Headers.SchemaLocationDeclared | src/xml_printer.cpp:1143-1150 | the root carries xsi:schemaLocation with the chosen value |
| Headers.HeaderBalanced | src/xml_printer.cpp:1152-1200 | the Header element, with its AssetCounts, is balanced |
| Headers.AssetCountsBalanced | src/xml_printer.cpp:1190-1199 | the AssetCounts block, whether written or not, is balanced |
| Headers.InitLeavesRootOpen | src/xml_printer.cpp:1059-1200 | initXmlDoc leaves exactly the root element open and never closes more than it opened |
| Observations.ElementNameChoice | src/xml_printer.cpp:972-987 | a condition is named by its level; other observations use the prefixed name only when the prefix is a registered streams namespace |
| Observations.UnavailableAsText | src/xml_printer.cpp:992-1056 | an UNAVAILABLE observation is written as text, whatever its kind |
| Observations.EntryAttributesMeaning | src/xml_printer.cpp:1009-1013 | an Entry carries its key, and removed="true" exactly when tombstoned |
| Observations.CellSilentIffUnsupported | src/xml_printer.cpp:1030-1044 | a table cell writes nothing exactly when its value has an unsupported type |
| Observations.ObservationBalanced | src/xml_printer.cpp:967-1057 | an observation is one balanced element |
| Observations.SeriesString | src/xml_printer.cpp:994-1001 | the time series text is each rendered sample followed by a space |
| Observations.AddDataSet | src/xml_printer.cpp:1006-1048 | writes one Entry per data set entry, a table row as an Entry of Cells |
| Observations.AddObservation | src/xml_printer.cpp:967-1057 | writes the element named as above, its attributes, and the body for its value kind |
| Samples.DeviceChangeClosesAll | src/xml_printer.cpp:854-862 | on a new device, every open category and component element is closed before a DeviceStream opens |
| Samples.ComponentChangeClosesCategory | src/xml_printer.cpp:864-872 | on a new component of the same device, the category is closed before a ComponentStream opens |
| Samples.SameGroupNoRegrouping | src/xml_printer.cpp:854-874 | an observation in the open device, component and category writes no start or end tag before itself |
| Samples.RunNested | src/xml_printer.cpp:848-877 | the loop never closes more than it opened, and leaves open what the guards hold |
| Samples.StreamsBalanced | src/xml_printer.cpp:834-883 | every start tag of the Streams element is matched by an end tag |
| Samples.EmptySample | src/xml_printer.cpp:837-883 | an empty list gives an empty Streams element and no DeviceStream |
| Samples.ObservationEnds | src/xml_printer.cpp:848-877 | each observation's element ends the output of its own step |
| Samples.ObservationsInOrder | src/xml_printer.cpp:848-877 | observations appear in exactly the order of the list |
| Samples.ResetStack | src/xml_printer.cpp:348-363 | `AutoElement::reset` replaces the guard's element on top of the open names by the new one (or by nothing for an empty name) |
| Samples.RegroupStack | src/xml_printer.cpp:854-874 | after the regrouping the names left open are exactly those of the three guards, outermost first |
| Samples.RegroupKeys | src/xml_printer.cpp:854-874 | after the regrouping the guards are keyed by the observation's device id, component id and category; a non-empty device or component id has its DeviceStream or ComponentStream open |
| Samples.RunWellFormed | src/xml_printer.cpp:848-877 | the device guard only ever holds a DeviceStream, the component guard a ComponentStream, and the category guard has the empty key |
| Samples.RunStack | src/xml_printer.cpp:848-877 | after any number of iterations the names left open are those of the guards |
| Samples.ObservationGrouped | src/xml_printer.cpp:848-877 | every observation's element is written with exactly its own device's DeviceStream, its component's ComponentStream and its category element open around it, inside Streams |
| Samples.CategoryOnlyChange | src/xml_printer.cpp:874 | an observation of the open device and component only closes the old category element and opens its own, and writes nothing for the same category |
| Samples.GuardsAfter | src/xml_printer.cpp:848-877 | between two observations the guards are keyed by the earlier one |
| Samples.DeviceResetWhen | src/xml_printer.cpp:854-862 | a DeviceStream is opened exactly when the device id differs from the previous observation's, or at a first observation with a non-empty id |
| Samples.ComponentResetWhen | src/xml_printer.cpp:864-872 | a ComponentStream is opened exactly when the device or component id differs from the previous observation's and the component id is non-empty after a new device |
| Samples.KeyOrderedTogether | src/xml_printer.cpp:839-840 | a list ordered by device id, then component id, then category keeps each device's observations and each component's together |
| Samples.OneDeviceStream | src/xml_printer.cpp:854-862 | with each device's observations together, every device with a non-empty id gets exactly one DeviceStream |
| Samples.OneComponentStream | src/xml_printer.cpp:864-872 | with each component's observations together, every component with a non-empty id gets exactly one ComponentStream per device |
| Samples.ChangeDevice | src/xml_printer.cpp:854-862 | the three guards and the writer move as DeviceChange says |
| Samples.ChangeComponent | src/xml_printer.cpp:864-872 | the guards and the writer move as ComponentChange says |
| Samples.SampleStep | src/xml_printer.cpp:850-876 | one iteration moves the guards and the writer as Step says |
| Samples.SampleLoop | src/xml_printer.cpp:848-877 | the loop moves the guards and the writer as Run says |
| Samples.FinishGuards | src/xml_printer.cpp:878-880 | the guards' destructors close what they hold |
| Probe.ChildName | src/xml_printer.cpp:652-664 | a child is named by its prefixed class or its class |
| Probe.ChildNameChoice | src/xml_printer.cpp:652-664 | the prefixed class is used exactly when the prefix is non-empty and registered among the Devices namespaces |
| Probe.CompositionsShape | src/xml_printer.cpp:669-683 | Compositions is written only when there are compositions, and is balanced |
| Probe.ReferenceRendering | src/xml_printer.cpp:689-709 | from schema 1.4 a data item reference is DataItemRef and a component reference is ComponentRef, each with idRef and name; before it a data item reference is Reference with dataItemId and name, and a component reference writes nothing |
| Probe.VersionComparedAsText | src/xml_printer.cpp:691 | the version test compares strings: "1.10" counts as before 1.4 |
| Probe.ReferenceNamesByVersion | src/xml_printer.cpp:689-709 | only the element names of the version's branch ever appear |
| Probe.ReferencesBalanced | src/xml_printer.cpp:685-710 | References is balanced |
| Probe.FilterShape | src/xml_printer.cpp:750-763 | a filter writes its type attribute exactly when present |
| Probe.FiltersShape | src/xml_printer.cpp:747-764 | Filters is written exactly when a minimum delta or period is set, with one Filter per set value |
| Probe.PrintCompositions | src/xml_printer.cpp:669-683 | writes CompositionsEvents |
| Probe.PrintReferences | src/xml_printer.cpp:685-710 | writes ReferencesEvents for the version |
| Probe.PrintFilters | src/xml_printer.cpp:747-764 | writes FiltersEvents |
| Assets.RemovedMarked | src/xml_printer.cpp:947-955 | removed="true" is written for a removed asset, and otherwise only if the identity carries it |
| Assets.AssetShape | src/xml_printer.cpp:913-927 | a cutting tool or archetype is its content alone; any other asset is one balanced element named by its type, with its content raw before the end tag |
| Assets.AssetsBalanced | src/xml_printer.cpp:910-928 | the Assets element is balanced |
| Assets.ContentsInOrder | src/xml_printer.cpp:913-927 | every asset's content appears, in the order of the list |
| Assets.PrintAssetNode | src/xml_printer.cpp:945-965 | writes identity, timestamp, deviceUuid, assetId, removed, archetype ref and description |
| Assets.PrintAsset | src/xml_printer.cpp:915-926 | writes one asset as AssetEvents says |
| Assets.PrintAssetList | src/xml_printer.cpp:913-927 | writes the assets in order |
| CuttingTools.KnownKeysDistinct | src/xml_printer.cpp:1284-1311 | the names printed by name are distinct, and Description is not among the tool's |
| CuttingTools.PrintedOnce | src/xml_printer.cpp:1275-1315 | names printed by name, then the remaining ones, cover every stored name not excluded exactly once, and the remaining ones ascend |
| CuttingTools.ToolValuesOnce | src/xml_printer.cpp:1275-1315 | every tool value except Description is printed exactly once |
| CuttingTools.ItemValuesOnce | src/xml_printer.cpp:1239-1251 | every cutting item value is printed exactly once |
| CuttingTools.NamedValueMeaning | src/xml_printer.cpp:1208-1232 | a value printed by name is the stored value, and nothing is printed for an absent name |
| CuttingTools.UnprintedMembers | src/xml_printer.cpp:1239-1251 | a name remains exactly when it is stored, not excluded and not printed by name |
| CuttingTools.ToolRestIsRemaining | src/xml_printer.cpp:1275-1315 | the set left after the tool's erasures is exactly the tool's remaining names |
| CuttingTools.ItemRestIsRemaining | src/xml_printer.cpp:1239-1250 | the set left after the item's erasures is exactly the item's remaining names |
| CuttingTools.ToolBalanced | src/xml_printer.cpp:1271-1335 | a cutting tool is one balanced element |
| CuttingTools.PrintValue | src/xml_printer.cpp:1203-1206 | a value is a simple element with a raw body |
| CuttingTools.PrintStoredValue | src/xml_printer.cpp:1208-1219 | prints the stored value of the name, if any |
| CuttingTools.PrintKnownValue | src/xml_printer.cpp:1208-1219 | prints the stored value of the name and erases the name from the remaining set when it was stored |
| CuttingTools.CollectRemaining | src/xml_printer.cpp:1275-1281 | the remaining set holds every stored name except the excluded ones, ascending |
| CuttingTools.PrintMeasurements | src/xml_printer.cpp:1317-1323 | Measurements only when there are any, in name order |
| CuttingTools.PrintStatus | src/xml_printer.cpp:1291-1296 | CutterStatus only when there is a status, one Status each |
| CuttingTools.PrintItemValues | src/xml_printer.cpp:1239-1251 | Description, Locus, the lives, then the remaining names in ascending order |
| CuttingTools.PrintCuttingItem | src/xml_printer.cpp:1234-1261 | one CuttingItem with identity, values and measurements |
| CuttingTools.PrintCuttingItems | src/xml_printer.cpp:1326-1333 | CuttingItems with its count only when there are items |
| CuttingTools.PrintLifeCycleKnown | src/xml_printer.cpp:1306-1311 | the six life cycle names in order, each erased when printed |
| CuttingTools.PrintToolValues | src/xml_printer.cpp:1299-1315 | ReconditionCount, the lives, the six names, then the remaining names |
| CuttingTools.PrintLifeCycle | src/xml_printer.cpp:1287-1334 | the CuttingToolLifeCycle element |
| CuttingTools.PrintCuttingToolElement | src/xml_printer.cpp:1271-1335 | the tool element: asset node, CuttingToolDefinition, life cycle |
| Printer.Predecessor | src/xml_printer.cpp:417 | nextSeq - 1 in unsigned 64-bit arithmetic, wrapping at 0 |
| Printer.ErrorShape | src/xml_printer.cpp:419-422 | Errors holds one Error, with errorCode when it is non-empty and the text when it is non-empty, and is balanced |
| Printer.RootClosed | src/xml_printer.cpp:882-883 | the preamble, a balanced body and the root's end tag are balanced |
| Printer.DocumentOutcome | src/xml_printer.cpp:411-437 | such a document is returned whole, or empty exactly when a call was refused |
| Printer.ErrorDocumentContained | src/xml_printer.cpp:407-438 | printError returns the whole error document or "" |
| Printer.SampleDocumentContained | src/xml_printer.cpp:822-897 | printSample returns the whole Streams document or "" |
| Printer.AssetsDocumentContained | src/xml_printer.cpp:899-943 | printAssets returns the whole Assets document or "" |
| Printer.CuttingToolDocumentContained | src/xml_printer.cpp:1263-1349 | printCuttingTool returns the whole tool element or "" |
| Printer.ErrorHeaderKeys | src/xml_printer.cpp:417 | an error header has bufferSize and no sequence numbers or asset sizes |
| Printer.AssetsHeaderReportsAssetBuffer | src/xml_printer.cpp:908 | printAssets reports its buffer size as assetBufferSize, with assetCount, and no bufferSize |
| Printer.AddNamespaceDeclarations | src/xml_printer.cpp:1119-1141 | the loop declares the namespaces and finds the first location and the "m" location |
| Printer.PrintRoot | src/xml_printer.cpp:1106-1150 | the root start tag with its namespaces and schema location |
| Printer.PrintHeaderAttributes | src/xml_printer.cpp:1155-1188 | the header attributes for the document kind |
| Printer.PrintAssetCounts | src/xml_printer.cpp:1190-1199 | AssetCounts for a non-empty count in a Devices document |
| Printer.PrintHeader | src/xml_printer.cpp:1152-1200 | the Header element |
| Printer.PrintStreams | src/xml_printer.cpp:834-883 | the Streams element for the observations |
| Printer.XmlPrinter.constructor | src/xml_printer.cpp:106-111 | an empty version means 1.5; no namespaces and no stylesheets |
| Printer.XmlPrinter.AddNamespace | src/xml_printer.cpp:113-122 | inserts into that kind's registry only, never overwriting |
| Printer.XmlPrinter.ClearNamespaces | src/xml_printer.cpp:124-127 | empties only that kind's registry |
| Printer.XmlPrinter.Lookup | src/xml_printer.cpp:129-145 | the `find` both getters make: the entry registered under the prefix, or an empty URN and location when none is |
| Printer.XmlPrinter.GetUrn | src/xml_printer.cpp:129-136 | the registered URN, or "" for an unknown prefix |
| Printer.XmlPrinter.GetLocation | src/xml_printer.cpp:138-145 | the registered location, or "" for an unknown prefix |
| Printer.XmlPrinter.SetSchemaVersion | src/xml_printer.cpp:197-200 | sets the version and nothing else |
| Printer.XmlPrinter.SetStyle | src/xml_printer.cpp:259-277 | sets that kind's stylesheet and nothing else |
| Printer.XmlPrinter.InitXmlDoc | src/xml_printer.cpp:1059-1200 | writes the preamble for the kind with the printer's settings |
| Printer.XmlPrinter.PrintError | src/xml_printer.cpp:407-438 | the error document, or "" when the writer fails |
| Printer.XmlPrinter.PrintSample | src/xml_printer.cpp:822-897 | the Streams document, or "" when the writer fails |
| Printer.XmlPrinter.PrintAssets | src/xml_printer.cpp:899-943 | the Assets document, or "" when the writer fails |
| Printer.XmlPrinter.PrintCuttingTool | src/xml_printer.cpp:1263-1349 | the cutting tool element, or "" when the writer fails |
| DataItems.Attribute | agent/data_item.cpp:73-111 | a missing attribute reads as "", as operator[] gives |
| DataItems.DataItem.constructor | agent/data_item.cpp:68-118 | copies the attributes; category is SAMPLE exactly for "SAMPLE"; nativeUnits defaults to units; nativeScale and significantDigits are set only when given; nothing is memoised yet |
| DataItems.DataItem.Attributes | agent/data_item.cpp:128-169 | always id, name, type and category; subType, nativeUnits, units and coordinateSystem exactly when non-empty; nativeScale and significantDigits exactly when set; no other key |
| DataItems.BuildGet | agent/data_item.cpp:128-169 | the map built field by field holds each written field's value and no unwritten key |
| DataItems.DataItem.HasName | agent/data_item.cpp:176-179 | the item answers to its name, and otherwise only to its non-empty source |
| DataItems.GetCamelType | agent/data_item.cpp:203-224 | the erase-and-upper-case loop yields the camel form |
| DataItems.CamelJoined | agent/data_item.cpp:203-224 | the camel form keeps the first character, has no '_' after it, and is no longer than the type |
| DataItems.SingleWord | agent/data_item.cpp:210-213 | a type without '_' is only lower-cased after its first character |
| DataItems.JoinWords | agent/data_item.cpp:215-221 | two words joined by '_' become one, with the second word's first letter upper-cased |
| DataItems.SpindleSpeed | agent/data_item.cpp:203-224 | SPINDLE_SPEED becomes SpindleSpeed |
| DataItems.DataItem.ConversionRequired | agent/data_item.cpp:226-235 | decided on the first call as "nativeUnits is non-empty"; every later call returns the same |
| DataItems.UnitFactor | agent/data_item.cpp:301-344 | the table's factors are positive, and any other name gives 1 |
| DataItems.DataItem.SimpleFactor | agent/data_item.cpp:301-344 | returns the table's factor and sets the offset to -32 for FAHRENHEIT only |
| DataItems.Factor | agent/data_item.cpp:251-293 | every factor selected is positive |
| DataItems.Offset | agent/data_item.cpp:315-316 | the offset is -32 exactly when some unit looked up is FAHRENHEIT, and 0 otherwise |
| DataItems.ScaledFactor | agent/data_item.cpp:290-293 | the factor divided by the native scale when one is set; never zero |
| DataItems.QuotientFactor | agent/data_item.cpp:276-279 | a denominator without '^' gives numerator factor over denominator factor |
| DataItems.PowerFactor | agent/data_item.cpp:280-287 | unit^n gives numerator factor over the unit's factor to the n |
| DataItems.RevolutionRates | agent/data_item.cpp:261-275 | REVOLUTION/SECOND is 60 times REVOLUTION/MINUTE |
| DataItems.FahrenheitToCelsius | agent/data_item.cpp:315-317 | 212 F converts to 100 and 32 F to 0 |
| DataItems.ConversionInjective | agent/data_item.cpp:243-292 | for any native units, with or without a non-zero native scale, the offset and scaled factor convertValue uses map different readings to different values |
| DataItems.ConversionMonotone | agent/data_item.cpp:243-292 | for any native units, without a native scale or with a positive one, the conversion preserves the order of readings |
| DataItems.DataItem.ComputeFactor | agent/data_item.cpp:251-288 | computes the factor and offset the native units call for |
| DataItems.DataItem.ConvertValue | agent/data_item.cpp:238-299 | with a cached factor, (raw + offset) * factor; with none and no conversion required, raw; otherwise computes, caches and applies the factor, and every later call reuses the cache |
| TestStrings.FirstNotDelim | test/test_globals.cpp:296 | the first non-delimiter at or after the start, if any |
| TestStrings.LastNotDelim | test/test_globals.cpp:306 | the last non-delimiter before the end, if any |
| TestStrings.TrimmedShape | test/test_globals.cpp:291-313 | the result is a contiguous substring whose cut-off ends are delimiters only and which neither starts nor ends with one; it is empty exactly for an all-delimiter input |
| TestStrings.TrimIdempotent | test/test_globals.cpp:291-313 | trimming twice equals trimming once |
| TestStrings.Trim | test/test_globals.cpp:291-313 | the in-place edits yield the trimmed string |
| TestStrings.FillAttribute | test/test_globals.cpp:64-82 | unchanged when `attribute=""` is absent; otherwise the value is inserted between the first occurrence's quotes, the length grows by the value's, and everything else is unchanged |
| TestStrings.FillAttributeFills | test/test_globals.cpp:70-81 | the result holds `attribute="value"` where the empty attribute was |
| TestStrings.TextStart | test/test_globals.cpp:49-54 | the backwards walk stops just after the last '>' before the tag |
| TestStrings.ErasedFindsTag | test/test_globals.cpp:56-59 | after the erase, the second find lands where the text began |
| TestStrings.FillErrorText | test/test_globals.cpp:38-61 | unchanged when "</Error>" is absent; otherwise the text between the last '>' before it and the tag is replaced by the given text |
| TestStrings.ErrorTextPlaced | test/test_globals.cpp:49-60 | the new text sits right after a '>' and right before "</Error>" |

## Left out

- The libxml2 writer itself (src/xml_printer.cpp:57-104), entity escaping and pretty indentation. The writer is an event trace. `Text(s)` stands for escaped text, `Raw(s)` for text written as is. A refused call or allocation failure is a writer refusal or a `capacity` bound on the number of events. `AutoElement.Finish` sends its close through the same sticky `Emit`, so a close refused at the capacity bound marks the writer failed; the destructor at src/xml_printer.cpp:365-369 ignores the result of that call.
- Floating point: `floatToString`, `to_string(double)` and the precision-6 stream are rendered text the model takes as given. Examples are filter values, time series samples, data set doubles and nativeScale in getAttributes.
- `getCurrentTime`, the host name lookup, the agent version string and `g_logger`. They are environment values in `Environment` / `HeaderValues`, or are left out.
- `dlib::qsort_array` with `ObservationCompare` (src/xml_printer.cpp:839-840). The comparator is not part of this model, so the sort is not modelled and the loop takes the observations in whatever order it leaves them. Samples.ObservationGrouped holds for any order. Samples.OneDeviceStream and Samples.OneComponentStream depend on the order: they require each device's observations, and each component's, to be next to each other. Samples.KeyOrderedTogether shows that an order by device id, then component id, then category does this. The comparator's actual key order and the stability of the sort are not modelled.
- printProbe as a whole and printProbeHelper's description, configuration, data item list and nesting. The Device and Component classes are not part of this model. Only child naming, Compositions, References and the Filters of printDataItem are modelled. printRawContent, printSensorConfiguration, printRelationships, printSpecifications, printCoordinateSystems, printDataItemDefinition and printCellDefinitions are left out for the same reason.
- `Asset::getContent` is the asset's `content` string. The Asset and CuttingTool classes' bodies are not part of this model.
- `DataItem::setLatestEvent` / `getLatestEvent` and their mutex: concurrency and manual memory ownership. `getTypeString` is a field selection.
- The data item's source setter is in agent/data_item.hpp, which is not part of this model. `source` is a plain field.
- xpathTest, xpathTestCount, getFile and the assertion helpers of test/test_globals.cpp: XPath, file I/O and the test framework.
- DataItems.DataItem.ConvertValue: the reading is a real, where the source runs `atof` on text. Factors are exact reals, not doubles, so the rounding of the table's constants, of the divisions and of `pow` is not modelled. The method requires a non-zero nativeScale when one is set, because IEEE infinity is not modelled.
- DataItems.DataItem.ComputeFactor: the `^power` exponent is the number formed by its leading digits, where the source raises to `atof(power)`. Fractional and negative powers are not modelled.
- DataItems.DataItem.constructor: `scale` and `digits` are the values `atof` and `atoi` give for the nativeScale and significantDigits texts. The constructor requires that the type does not end in '_' after its first character. That input makes getCamelType dereference the end of the string, which is undefined behaviour.
- DataItems.GetCamelType: requires the same condition, for the same reason.
- TestStrings.FillErrorText: requires a '>' before the first "</Error>" when that tag occurs. Without one the backwards walk reads before the start of the string.
- CuttingTools.PrintCuttingToolElement: requires the tool's and items' value maps to be strictly ascending (`WellFormed`), the std::map invariant. The same holds for the other cutting tool methods and for Printer.XmlPrinter.PrintCuttingTool.
- Samples.SampleLoop: requires the three guards to start idle, as they are constructed in the source.
