# RDM web gateway of the Open Lighting Architecture daemon

`olad` serves a web control panel for the RDM responders (DMX fixtures and
other devices) on its universes. The RDM HTTP module in that daemon answers
the panel's JSON requests. It does four things:

- it lists a universe's UIDs with their manufacturer and device labels, kept
  in a per-universe registry;
- it resolves the labels of newly seen UIDs in the background, one RDM
  request in flight per universe at a time;
- it works out, from a responder's SUPPORTED_PARAMETERS and DEVICE_INFO
  replies, which sections of the panel apply to that responder;
- it renders each section from a chain of RDM GETs and saves it with an
  RDM SET.

Every RDM reply is classified the same way: success, or a message that names
what went wrong. The schema printer, a small visitor of the messaging
library, turns a message descriptor into an indented text schema.

The model is written in Dafny in nine modules.

- `Support`: decimal text, a strict unsigned parser with a width limit, and
  a lexicographic string order.
- `Rdm`: UIDs, response statuses and descriptors, PID constants, and the
  name tables of the RDM library, passed in as functions.
- `Replies`: section ids, the items a section holds, and the replies the
  gateway serves.
- `ResponseCheck`: the response classifier.
- `UidRegistry`: the per-universe registry and resolution queue, as values.
  It also holds the functions that say what reconciling a UID list,
  draining the queue, recording a label and pruning the universe list do.
- `Gateway`: the stateful module, a class holding the universe map.
  - Its methods (the UID-list handler, the drain loop, the two label
    continuations and universe pruning) are proved against the
    `UidRegistry` functions.
  - They preserve a single-flight invariant, with a ghost count of the
    label requests in flight.
- `SectionCatalog`: the supported-sections catalog: the collection pass, the
  sort by name, and what the catalog contains.
  - The handler's catalog (`CollectedSections`) files the lamp-hours entry
    as the code does, under the device-hours id.
  - `CorrectedSections` is the catalog with that entry under its own id; the
    lamp-hours finding below is proved about both.
- `SectionPages`: request validation and dispatch for displaying and saving a
  section, and each section's chain of replies.
- `SchemaPrinter`: the schema printer visitor as a class.
  - Its `Traverse` method is proved to write exactly the `Printed` schema of
    a field tree.
  - It leaves the indentation as it found it.

## Model

| member | source | states |
|---|---|---|
| ResponseCheck.CheckForRDMSuccessWithError | olad/RDMHttpModule.cpp:1734-1766 | Success exactly for a valid response. The error is left untouched exactly for a valid response and for a broadcast. Each other status writes its own prefix followed by the transport error, the NACK reason's name, the malformed-reply text, or the unknown status code. |
| ResponseCheck.CheckForRDMSuccess | olad/RDMHttpModule.cpp:1719-1727 | True exactly for a valid response. |
| ResponseCheck.CheckForRDMError | olad/RDMHttpModule.cpp:1681-1689 | No reply exactly for a valid response. Otherwise an error JSON reply whose message is the text the classifier wrote, or empty when it wrote none; it is empty exactly for a broadcast request. |
| ResponseCheck.SetHandler | olad/RDMHttpModule.cpp:1668-1674 | A save is answered with an error JSON reply carrying the classifier's text, or an empty error when it wrote none. The error is empty exactly when the device accepted the SET or the SET was broadcast. |
| ResponseCheck.MessagesNonEmpty | olad/RDMHttpModule.cpp:1734-1766 | Every message the classifier writes is non-empty. |
| ResponseCheck.MessageNamesCategory | olad/RDMHttpModule.cpp:1739-1764 | The message's prefix identifies its failure category: a command error, a NACK, a malformed reply or an unknown status. The four prefixes never overlap. |
| Replies.ParseIdText | olad/RDMHttpModule.cpp:76-86 | The text of each section id parses back to that id, so the eleven section ids are distinct texts. |
| UidRegistry.StateOrNew | olad/RDMHttpModule.cpp:575-589 | A tracked universe's state is returned as is. A new universe starts with no UIDs, an empty queue, resolution idle and marked active. |
| UidRegistry.ReconciledEntries | olad/RDMHttpModule.cpp:393-451 | After a UID-list pass the registry holds exactly the listed UIDs, all active. A known UID keeps both labels and a new UID has empty labels. |
| UidRegistry.NewTasksMembership | olad/RDMHttpModule.cpp:404-418 | A resolution task for a UID, of either kind, is queued exactly when the UID is listed and was not known. |
| UidRegistry.ReconcileIdempotent | olad/RDMHttpModule.cpp:382-455 | Reconciling twice with the same list changes nothing the second time and queues nothing more. |
| UidRegistry.NewTasksPaired | olad/RDMHttpModule.cpp:410-415 | In what one pass queues, every manufacturer task is immediately followed by the device task of the same UID, and every device task immediately follows its manufacturer task. |
| UidRegistry.NewTasksAscending | olad/RDMHttpModule.cpp:404-415 | The tasks of one pass follow the UID set's iteration order, ascending by UID. |
| UidRegistry.DrainOutcome | olad/RDMHttpModule.cpp:462-510 | A drain pops tasks from the front. It leaves resolution idle only with an empty queue and has at most one accepted request, the last one. The popped tasks followed by the remaining queue are the original queue. |
| UidRegistry.WithLabelEffect | olad/RDMHttpModule.cpp:525-530 | A resolved label changes only the matching field of an existing entry. An unknown UID is not inserted. Other entries, the queue and the running flag are unchanged. |
| UidRegistry.PrunedEntries | olad/RDMHttpModule.cpp:349-373 | After pruning exactly the tracked universes that are listed remain. Their UIDs, queues and running flags are unchanged. |
| Gateway.CompletionReleases | olad/RDMHttpModule.cpp:515-532 | When the one request in flight for a universe completes, that universe has nothing in flight and every other universe keeps single flight. |
| Gateway.IdleStart | olad/RDMHttpModule.cpp:453-454 | A universe whose resolution is idle, or an untracked one with nothing in flight, may start a drain without breaking single flight. |
| Gateway.SingleFlightSameFlag | olad/RDMHttpModule.cpp:453-454 | Replacing a universe's state by one with the same running flag keeps single flight. |
| Gateway.SingleFlightAfterDrain | olad/RDMHttpModule.cpp:462-510 | A drain started with nothing in flight for its universe leaves at most one request in flight. The running flag then says whether one is. |
| Gateway.MarkInactive | olad/RDMHttpModule.cpp:393-397 | Every registered UID is kept with its labels and marked inactive. |
| Gateway.ListOne | olad/RDMHttpModule.cpp:405-422 | One listed UID that was not listed before in the pass: a known one is reactivated and its row carries its labels; a new one gets an empty active entry, an unlabelled row and its two resolution tasks. The registry stays `ListedSoFar` with the UID added. |
| Gateway.ActivateListed | olad/RDMHttpModule.cpp:404-432 | The pass over an ascending UID list: listed UIDs are reactivated, or entered with empty labels. The queue gets exactly `NewTasks` and the listing rows are the labels known before the pass. |
| Gateway.SweepInactive | olad/RDMHttpModule.cpp:442-451 | Exactly the active entries remain, unchanged. |
| Gateway.Reconcile | olad/RDMHttpModule.cpp:393-451 | Mark, reactivate and sweep together give `Reconciled` of the old state and the listing of the labels known before. |
| Gateway.RdmHttpModule.constructor | olad/RDMHttpModule.cpp:95-120 | No universe is tracked and nothing is in flight, so single flight holds. |
| Gateway.RdmHttpModule.GetUniverseUids | olad/RDMHttpModule.cpp:562-567 | The state of a tracked universe, or none. |
| Gateway.RdmHttpModule.GetUniverseUidsOrCreate | olad/RDMHttpModule.cpp:575-589 | Returns `StateOrNew` and stores it under the universe id. Nothing else changes. |
| Gateway.RdmHttpModule.ResolveNextUID | olad/RDMHttpModule.cpp:462-510 | An untracked universe is left alone. Otherwise the attempts form a drain of the universe's queue and the universe's new state is `Drained`. The in-flight count grows by one exactly when the drain's last submission was accepted. |
| Gateway.RdmHttpModule.HandleUIDList | olad/RDMHttpModule.cpp:382-455 | A client error is served and changes nothing. Otherwise the universe is reconciled with the list, the reply lists the labels known before, and a drain starts exactly when resolution was idle. Single flight is preserved. |
| Gateway.RdmHttpModule.UpdateUIDManufacturerLabel | olad/RDMHttpModule.cpp:515-532 | Releases the request in flight. For a tracked universe, a successful reply records the manufacturer label and the drain goes on. A universe that is gone is left alone. Single flight is preserved. |
| Gateway.RdmHttpModule.UpdateUIDDeviceLabel | olad/RDMHttpModule.cpp:538-555 | The same, for the device label. |
| Gateway.RdmHttpModule.PruneUniverseList | olad/RDMHttpModule.cpp:349-373 | The universe map becomes `Pruned` of the old map and the listed ids. Single flight is preserved. |
| Gateway.RdmHttpModule.GetManufacturerLabelHandler | olad/RDMHttpModule.cpp:966-986 | A failed read is the classifier's error reply and changes nothing. A successful read is a one-item section and refreshes the label of a UID in the registry. |
| Gateway.RdmHttpModule.GetDeviceLabelHandler | olad/RDMHttpModule.cpp:1015-1036 | The same for the device label, shown as an editable item on the `label` field. |
| SectionCatalog.SensorSections | olad/RDMHttpModule.cpp:719-724 | One section per sensor: sensor `i` is named "Sensor i+1" and carries hint `i`. |
| SectionCatalog.Insert | olad/RDMHttpModule.cpp:728 | Inserting into a list sorted by name keeps it sorted, and adds exactly the one entry. |
| SectionCatalog.SortByName | olad/RDMHttpModule.cpp:728 | The result is sorted by name and is a permutation of the input. |
| SectionCatalog.SupportedSectionsHandler | olad/RDMHttpModule.cpp:625-651 | A NACK of SUPPORTED_PARAMETERS is tolerated. Any other failure is served as the disconnected-backend error. Otherwise DEVICE_INFO is requested, and a refusal is served with the client's message. |
| SectionCatalog.PidPassStep | olad/RDMHttpModule.cpp:677-708 | One more pid of the pass adds its section as the switch files it (PID_LAMP_HOURS's "Lamp Hours" under the device-hours id) and sets the start-address and boot-software flags. |
| SectionCatalog.PidPass | olad/RDMHttpModule.cpp:675-708 | The pass over the pid list appends exactly `PidSections` of the list, the sections as the switch files them. The start-address flag is set exactly when DMX_START_ADDRESS is listed, and the boot-software flag exactly when either boot-software pid is listed. |
| SectionCatalog.AddSensorSections | olad/RDMHttpModule.cpp:719-724 | Appends one section per sensor, in order, numbered from 1 with the zero-based index as hint. |
| SectionCatalog.SupportedSectionsDeviceInfoHandler | olad/RDMHttpModule.cpp:657-746 | The listed sections are sorted by name and are a permutation of `CollectedSections`: the fixed sections, the pid pass as written, boot software, the footprint's start address and the sensors, in that order. |
| SectionCatalog.CatalogFixedSections | olad/RDMHttpModule.cpp:666-672 | Device info and identify are offered once each. Both carry hint "m" exactly when DEVICE_MODEL_DESCRIPTION is listed. |
| SectionCatalog.CatalogBootSoftware | olad/RDMHttpModule.cpp:689-711 | One boot-software section exactly when either boot-software pid is listed, and none otherwise. |
| SectionCatalog.CatalogDmxAddress | olad/RDMHttpModule.cpp:693-714 | One start-address section per listed DMX_START_ADDRESS. A footprint adds one more only when the DEVICE_INFO read succeeded and the pid is not listed. |
| SectionCatalog.CollectedDmx | olad/RDMHttpModule.cpp:693-714 | The start-address sections are those of the pid pass followed by the footprint's. |
| SectionCatalog.CatalogSensors | olad/RDMHttpModule.cpp:713-726 | The sensor sections are one per sensor, exactly when the DEVICE_INFO read succeeded and both sensor pids are listed. |
| SectionCatalog.SensorSectionsNumbered | olad/RDMHttpModule.cpp:719-724 | A sensor section's hint parses back to its sensor index as an 8-bit number, and the names of distinct sensors differ. |
| SectionCatalog.PidHoursSections | olad/RDMHttpModule.cpp:697-702 | The pid pass as written offers "Device Hours" exactly when PID_DEVICE_HOURS is listed and "Lamp Hours" exactly when PID_LAMP_HOURS is listed, both under the device-hours id. It files nothing under the lamp-hours id. |
| SectionCatalog.CatalogHoursAsWritten | olad/RDMHttpModule.cpp:700-701 | In the catalog the handler sends, a listed PID_LAMP_HOURS gives the "Lamp Hours" entry under the device-hours id. No entry is ever under the lamp-hours id, so the lamp-hours page is never offered. |
| SectionCatalog.PidHoursSectionsCorrected | olad/RDMHttpModule.cpp:697-702 | Corrected pid pass: each hours entry is offered exactly when its pid is listed, and every entry under an hours id is that page's own. |
| SectionCatalog.CatalogHours | olad/RDMHttpModule.cpp:697-702 | Corrected catalog (`CorrectedSections`): "Device Hours" and "Lamp Hours" each open their own page, offered exactly when the pid is listed. |
| SectionPages.CheckForInvalidId | olad/RDMHttpModule.cpp:1639-1647 | The universe id is accepted exactly when the `id` parameter is an unsigned 32-bit decimal number. |
| SectionPages.NumberStage | olad/RDMHttpModule.cpp:1271-1293 | A number parameter is rejected with the section's message exactly when it does not parse within the field's width. Otherwise its value is sent. |
| SectionPages.GetStage | olad/RDMHttpModule.cpp:1299-1323 | The first GET of each section. Only the sensor section can reject its parameter: a hint that is not an 8-bit number. |
| SectionPages.SetStage | olad/RDMHttpModule.cpp:1426-1447 | A save request exists exactly for the seven writable sections. Each is a SET. |
| SectionPages.JsonSupportedSections | olad/RDMHttpModule.cpp:227-253 | Not found exactly for a bad universe id or UID. A refused request is the disconnected-backend error. Otherwise SUPPORTED_PARAMETERS is requested from that responder. |
| SectionPages.JsonSectionInfo | olad/RDMHttpModule.cpp:259-301 | Not found exactly when the universe, UID or section is unknown. Otherwise the section's GET is sent to that responder, unless its parameter is invalid or the client refuses. Either failure is a server error after the disconnected-backend message. |
| SectionPages.JsonSaveSectionInfo | olad/RDMHttpModule.cpp:307-341 | Not found for an unknown or read-only section. A sent SET is the section's save request. A rejected parameter or a refused send is an error JSON reply with a non-empty message. |
| SectionPages.SaveRejectsInvalidNumber | olad/RDMHttpModule.cpp:1271-1293 | A start address, sensor number or hour count that does not parse sends nothing, and its validation message is the reply. |
| SectionPages.SaveNumberRoundTrip | olad/RDMHttpModule.cpp:1489-1511 | Saving the decimal text of a shown number sets the pid the page reads, to that number. |
| SectionPages.SensorHintRoundTrip | olad/RDMHttpModule.cpp:1426-1447 | A catalog sensor hint addresses the same sensor for display and for recording. |
| SectionPages.SaveIdentify | olad/RDMHttpModule.cpp:1617-1633 | Identify is switched on exactly when the field is "1", and off for any other text, the empty one included. |
| SectionPages.Then | olad/RDMHttpModule.cpp:776-810 | The next request of a chain is sent unless the client reports an error, which is then served after the disconnected-backend message. |
| SectionPages.CompositeLayout | olad/RDMHttpModule.cpp:860-875 | A responder's text is shown followed by " (", the number and ")", or the number alone when there is no text. |
| SectionPages.GetSoftwareVersionHandler | olad/RDMHttpModule.cpp:776-810 | The version label is kept only from a successful reply. The model description is asked for next exactly when the hint has 'm', and DEVICE_INFO otherwise. |
| SectionPages.GetDeviceModelHandler | olad/RDMHttpModule.cpp:816-838 | The model description is kept only from a successful reply. DEVICE_INFO is asked for next. |
| SectionPages.DeviceInfoItems | olad/RDMHttpModule.cpp:844-886 | Eight items. The model and the software version are each the responder's text beside DEVICE_INFO's number. |
| SectionPages.GetDeviceInfoHandler | olad/RDMHttpModule.cpp:844-886 | A failed DEVICE_INFO read is the classifier's error reply. Otherwise the eight-item page. |
| SectionPages.DeviceInfoChain | olad/RDMHttpModule.cpp:752-886 | Over the whole chain, the model text is asked for and shown only with the hint's 'm'. A failed text read leaves the plain number, and the chain always ends with DEVICE_INFO. |
| SectionPages.GetBootSoftwareLabelHandler | olad/RDMHttpModule.cpp:1182-1201 | The label is passed on whatever its status, and the version id is asked for next. |
| SectionPages.GetBootSoftwareVersionHandler | olad/RDMHttpModule.cpp:1207-1225 | Never an error: the version beside the label when it arrived, otherwise the label alone. |
| SectionPages.ProductNames | olad/RDMHttpModule.cpp:921-926 | No part is empty, and a text is a part exactly when it is the non-empty name of some listed id. |
| SectionPages.ProductNamesConcat | olad/RDMHttpModule.cpp:920-930 | The names keep the order of the ids: the names of a concatenation are those of each part in turn. |
| SectionPages.ProductNamesSingle | olad/RDMHttpModule.cpp:921-926 | One id gives its name or, when it has none, nothing. |
| SectionPages.GetProductIdsHandler | olad/RDMHttpModule.cpp:913-937 | A failed read is the classifier's error reply. Otherwise one item: the named product details joined by ", ". |
| SectionPages.JoinEmpty | olad/RDMHttpModule.cpp:913-937 | The product text is empty exactly when no listed id has a name. |
| SectionPages.GetSupportedLanguagesHandler | olad/RDMHttpModule.cpp:1085-1105 | The language list is passed on whatever its status, and the current language is asked for next. |
| SectionPages.LastIndexOf | olad/RDMHttpModule.cpp:1119-1125 | Absent exactly when the language is not listed. Otherwise its last position. |
| SectionPages.LanguageSelect | olad/RDMHttpModule.cpp:1111-1133 | The options are the supported languages, or the current language alone when none are listed. The selection, made only after a successful read, is a position of the current language with no later occurrence. |
| SectionPages.GetLanguageHandler | olad/RDMHttpModule.cpp:1111-1133 | The loop builds exactly `LanguageSelect`'s selector. |
| SectionPages.SensorDefinitionHandler | olad/RDMHttpModule.cpp:1329-1355 | The definition is kept exactly when it arrived, and the sensor's value is asked for next. |
| SectionPages.SensorValueHandlerAsWritten | olad/RDMHttpModule.cpp:1361-1420 | As written, both recorded-value items appear for any nonzero support field. |
| SectionPages.SensorValueHandler | olad/RDMHttpModule.cpp:1361-1420 | Corrected: the page is `SensorItems` of the definition and the value, with "Recorded Value" shown exactly when the recorded-value bit is set and the min/max item exactly when the range bit is set. The record field is present exactly when the support field is nonzero. A failed read is the classifier's error reply. |
| SectionPages.SensorItemsLabels | olad/RDMHttpModule.cpp:1370-1416 | The page's descriptions in order, the optional ones as their flags say. |
| SectionPages.SensorLabelsShown | olad/RDMHttpModule.cpp:1390-1406 | Each optional description is present exactly when its flag is set. |
| SectionPages.SensorItemsRecordable | olad/RDMHttpModule.cpp:1408-1416 | The hidden record field is present exactly when the sensor records anything. |
| SectionPages.SensorFlagFinding | olad/RDMHttpModule.cpp:1390-1391 | With support field 2, the page as written shows "Recorded Value" although the recorded-value bit is clear. |
| SectionPages.SectionOrError | olad/RDMHttpModule.cpp:1681-1689 | A page of the given items, or exactly the classifier's error reply. |
| SectionPages.GetStartAddressHandler | olad/RDMHttpModule.cpp:1252-1265 | The start address is editable on the `address` field, from 0 to 511, with no save button. A failed read is the classifier's error reply. |
| SectionPages.DeviceHoursHandler | olad/RDMHttpModule.cpp:1474-1483 | The device hours, editable on the `hours` field, with no save button. A failed read is the classifier's error reply. |
| SectionPages.LampHoursHandler | olad/RDMHttpModule.cpp:1538-1547 | The lamp hours, editable on the same `hours` field, with no save button. A failed read is the classifier's error reply. |
| SectionPages.GetIdentifyModeHandler | olad/RDMHttpModule.cpp:1600-1611 | The identify mode, as a switch on the `identify` field, with no save button. A failed read is the classifier's error reply. |
| SectionPages.CatalogEntryOpensItsPage | olad/RDMHttpModule.cpp:259-301 | Displaying an entry of the corrected pid pass (`PidSectionCorrected`) sends a GET of the pid that put it in the catalog. Language, which first reads its capabilities, is the exception. |
| SectionPages.LampHoursFinding | olad/RDMHttpModule.cpp:700-701 | As written, the catalog's "Lamp Hours" entry opens the device-hours page, which reads PID_DEVICE_HOURS. |
| SchemaPrinter.TypeToken | common/messaging/SchemaPrinterVisitor.cpp:47-86 | The six integer kinds print distinct tokens: the first character gives the signedness and the last the width. |
| SchemaPrinter.LineColumn | common/messaging/SchemaPrinterVisitor.cpp:37 | A printed line has exactly `indent` leading spaces and ends in a newline. |
| SchemaPrinter.PrintedStartsAtIndent | common/messaging/SchemaPrinterVisitor.cpp:35-98 | A printed field starts at its indent and ends in a newline. |
| SchemaPrinter.SchemaPrinterVisitor.constructor | common/messaging/SchemaPrinterVisitor.cpp:35-98 | Empty output, indent 0 and no open group. |
| SchemaPrinter.SchemaPrinterVisitor.VisitBool | common/messaging/SchemaPrinterVisitor.cpp:35-38 | Appends one line, `name: bool`, at the current indent. |
| SchemaPrinter.SchemaPrinterVisitor.VisitString | common/messaging/SchemaPrinterVisitor.cpp:41-44 | Appends one line with the size bounds, `name: string [min, max]`. |
| SchemaPrinter.SchemaPrinterVisitor.VisitInteger | common/messaging/SchemaPrinterVisitor.cpp:47-87 | Appends one line with the kind's type token. |
| SchemaPrinter.SchemaPrinterVisitor.VisitGroup | common/messaging/SchemaPrinterVisitor.cpp:89-92 | Appends `name {` at the current indent, then indents one step deeper and records the group as open. |
| SchemaPrinter.SchemaPrinterVisitor.PostVisitGroup | common/messaging/SchemaPrinterVisitor.cpp:95-99 | Steps back and writes the closing brace at the column where the group was opened. |
| SchemaPrinter.SchemaPrinterVisitor.Traverse | common/messaging/SchemaPrinterVisitor.cpp:35-98 | Visiting a field tree appends exactly its `Printed` schema and leaves the indent and the open groups as they were. |
| SchemaPrinter.SchemaPrinterVisitor.TraverseGroup | common/messaging/SchemaPrinterVisitor.cpp:89-98 | A group's visit, its fields and its post-visit append exactly the group's `Printed` schema: the opening line and the closing brace at the same column, the fields one step deeper. |
| SchemaPrinter.SchemaPrinterVisitor.TraverseFields | common/messaging/SchemaPrinterVisitor.cpp:35-98 | The fields of a group, visited in order, append their `Printed` texts in order at the current indent, and leave the indent and the open groups unchanged. |

## Left out

- HTTP and JSON text: replies are modelled as values (`HttpReply`, `JsonSection`), not as the text the server writes. JSON escaping is not modelled, and neither are the content types.
- The RDM API and the client are not part of this model. Each call's synchronous answer is a parameter (`apiError`, `accepted`) or is left open in the drain loop. Each reply arrives as the handler's arguments.
- `RunRDMDiscovery` and `HandleBoolResponse` (olad/RDMHttpModule.cpp:142-157, 1774-1784): forced discovery only forwards to the client, and its callback only forwards the client's error.
- `JsonUIDs` (olad/RDMHttpModule.cpp:166-182): it only validates the universe id and asks the client for the UID list, whose handler `HandleUIDList` is modelled.
- `JsonSupportedPIDs` and `SupportedParamsHandler` (olad/RDMHttpModule.cpp:192-216, 595-618): a debugging listing that the panel does not use.
- The `Get*` and `Set*` request functions (for example olad/RDMHttpModule.cpp:752-770, 1042-1058) are modelled only by the request they send (`GetStage`, `SetStage`), not by the callback they register.
- `StringToUInt*` of the OLA utility library is not part of this model. `Support.ParseUInt` is a strict decimal parser, so the library's handling of whitespace, signs and trailing text is not modelled.
- `UID::FromString` is the parameter `uidOf` of `CheckForInvalidUid`.
- The `*ToString` tables of the RDM library (NACK reasons, product categories, product details, sensor types, units, prefixes) are the functions of `Rdm.Names`.
- `lt_section_info` is taken to compare names lexicographically. `std::sort` is not stable, so the catalog is specified as sorted and a permutation, not as one particular order of sections with equal names.
- Debug output is left out: the `std::cout` of the indent in the bool visitor (common/messaging/SchemaPrinterVisitor.cpp:36) and the logging throughout the module.
- Concurrency is left out. The module runs on the daemon's single event thread, and each continuation is modelled as a method the environment calls.
- Universe states are held by value in a map, not by pointer, so the model does not capture aliasing of `uid_resolution_state` objects.
- Gateway.RdmHttpModule.HandleUIDList: single flight is promised only when the universe is tracked or has nothing in flight. If a universe is pruned while a label request is in flight and is then recreated, the code as written can start a second drain beside the first.
- SchemaPrinter.SchemaPrinterVisitor.constructor: the header that declares the visitor is not part of this model. The constructor's empty initial state is assumed.
- SchemaPrinter.SchemaPrinterVisitor.PostVisitGroup: the indent is unsigned in the source. Its requirement that a group is open excludes the wrap-around a stray post-visit would cause.
- SchemaPrinter.SchemaPrinterVisitor.Traverse, TraverseGroup and TraverseFields stand for the descriptor's own traversal, which is not part of this model. Field descriptors are the `Field` datatype.
- SectionPages.SensorValueHandler: it requires that a definition arrived whenever the value read succeeded. Without one, the code skips the definition's items but still dereferences the definition for the present value's unit (olad/RDMHttpModule.cpp:1409-1411), so that case is excluded.
- SectionPages.SaveIdentify, Replies.ParseIdText and SectionPages.CatalogEntryOpensItsPage follow directly from the definitions, without proof steps of their own.
- tools/e133/e133-monitor.cpp is a separate program and is not part of this model.

## Findings

| source | as written | input that shows it | evidently intended | confidence | as-written member | corrected member |
|---|---|---|---|---|---|---|
| olad/RDMHttpModule.cpp:1390-1391 | `recorded_value_support && SENSOR_RECORDED_VALUE` (and the same at 1399-1400 for the range bit) is a logical AND with a nonzero constant, so it tests only that the support field is nonzero | a sensor whose definition has `recorded_value_support == 2` (ranges only) gets a "Recorded Value" item | a bitwise `&` test of each bit | not executed | SectionPages.SensorFlagFinding | SectionPages.SensorValueHandler |
| olad/RDMHttpModule.cpp:700-701 | PID_LAMP_HOURS adds its "Lamp Hours" entry under `DEVICE_HOURS_SECTION`, so the lamp-hours page (`LAMP_HOURS_SECTION`, dispatched at line 289) is never offered | a responder listing PID_LAMP_HOURS: displaying its "Lamp Hours" entry reads PID_DEVICE_HOURS | the entry under `LAMP_HOURS_SECTION` | not executed | SectionCatalog.CatalogHoursAsWritten | SectionCatalog.CatalogHours |
