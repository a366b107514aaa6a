# Import status, import dialog decisions and search results of OMERO.insight

This project models three pieces of sequential logic from the OMERO.insight
client, with the Swing widgets replaced by the values they hold, and proves
properties about them.

- **`ImportStatus`** (`StatusLabel.dfy`) models the status label of one file import.
  - The label observes import events and renders a progress text ("prepping", "analyzing", "3/10", "2/4: 3/10", "one file", "12 files", ...).
  - It keeps the counters that text needs (planes, files, series), plus the error text, the reader, the used files, the start and end times, and a cancel flag.
  - The state is the value `LabelState`. Its transition functions are `Next` (one event), `Step` (one operation) and `Apply` (a run).
  - The class `StatusLabel` holds the same state in fields. Each of its methods is proved to perform exactly one transition.
  - The properties of runs are lemmas about `Apply`: where each field's value comes from, what never changes, and the duration of a run.
  - Java `int` and `long` are the subset types `Int32` and `Int64`. Overflow is written out (`Wrap32`, `Wrap64`).
  - `Integer.toString` is `IntText`, with a proved read-back.
  - Clock readings are parameters.
- **`ImportChooser`** (`ImportDialog.dfy`) models the decisions the import dialog takes:
  - the merge of a tag selection with the unsaved tags on display;
  - the removal of a tag;
  - the split of offered tags into selected and available;
  - the pixel sizes, the naming depth and the default dataset name handed to the import;
  - which chosen files are admitted;
  - whether a folder becomes a container;
  - the header text;
  - the list of datasets.
- **`SearchResults`** (`SearchResultModel.dfy`) models the search-result model of the data browser:
  - display nodes, grouped by kind in a fixed order;
  - the thumbnail batches to request, one per group with images;
  - the thumbnail map, filled for the first matching image display;
  - the tables to refresh.
- **`Optional`** gives the `Option` type that stands for a Java reference that may be null.

## Model

| member | source | states |
|---|---|---|
| ImportStatus.Wrap32 | SRC/org/openmicroscopy/shoola/env/data/util/StatusLabel.java:264 | `int` addition wraps: in range the value is unchanged, and the result is always congruent to the exact sum modulo 2^32 |
| ImportStatus.Wrap64 | SRC/org/openmicroscopy/shoola/env/data/util/StatusLabel.java:152 | `long` subtraction wraps: in range the value is unchanged, and the result is always congruent modulo 2^64 |
| ImportStatus.NatText | SRC/org/openmicroscopy/shoola/env/data/util/StatusLabel.java:248 | the decimal text of a number is non-empty, all digits, and starts with '0' only for zero |
| ImportStatus.NatTextValue | SRC/org/openmicroscopy/shoola/env/data/util/StatusLabel.java:248 | reading the digits of a number's text gives the number back |
| ImportStatus.IntTextRoundTrip | SRC/org/openmicroscopy/shoola/env/data/util/StatusLabel.java:248 | the text an `int` is rendered to, sign included, reads back as that `int` |
| ImportStatus.Duration | SRC/org/openmicroscopy/shoola/env/data/util/StatusLabel.java:152 | with both times non-negative, the duration is exactly end time minus start time |
| ImportStatus.IgnoredEventsChangeNothing | SRC/org/openmicroscopy/shoola/env/data/util/StatusLabel.java:236-287 | a null event, or an event of a kind the label does not handle, changes no field |
| ImportStatus.DoneTextNamesCount | SRC/org/openmicroscopy/shoola/env/data/util/StatusLabel.java:245-248 | the done text is "one file" for 1, empty for 0, and otherwise the number (read back exactly) followed by " files" |
| ImportStatus.StepPastMaxPlanesIgnored | SRC/org/openmicroscopy/shoola/env/data/util/StatusLabel.java:255-270 | a step beyond the number of planes changes nothing: not the text, not the series count |
| ImportStatus.StepShowsProgress | SRC/org/openmicroscopy/shoola/env/data/util/StatusLabel.java:255-270 | a step within the planes records the series count and shows "(series+1)/count: step/max" with several series, "step/max" otherwise; nothing else changes |
| ImportStatus.ErrorEventsLeaveTextAlone | SRC/org/openmicroscopy/shoola/env/data/util/StatusLabel.java:275-283 | events that do not render text leave it alone; unknown-format and missing-library set only the error text; a file exception sets only the end time, reader and used files |
| ImportStatus.CancelFlagOnlyRises | SRC/org/openmicroscopy/shoola/env/data/util/StatusLabel.java:130-138 | after any run, the cancel flag is set if and only if it was set before or the run marks the import as cancelled; nothing clears it |
| ImportStatus.FileCountNeedsScan | SRC/org/openmicroscopy/shoola/env/data/util/StatusLabel.java:271-274 | a run without a scanning event leaves the number of files unchanged |
| ImportStatus.FileCountFromLastScan | SRC/org/openmicroscopy/shoola/env/data/util/StatusLabel.java:271-274 | the number of files is the total of the last scanning event of a run |
| ImportStatus.StartTimeFromLastLoading | SRC/org/openmicroscopy/shoola/env/data/util/StatusLabel.java:239-241 | the start time is the clock reading of the last loading-image event |
| ImportStatus.EndTimeFromLastEnd | SRC/org/openmicroscopy/shoola/env/data/util/StatusLabel.java:245-276 | the end time is the clock reading of the last import-done or file-exception event |
| ImportStatus.LoadedThenDoneDuration | SRC/org/openmicroscopy/shoola/env/data/util/StatusLabel.java:239-249 | an import loaded at t0 and done at t1, with no other loading or end event in between, reports the duration t1 - t0 |
| ImportStatus.ErrorTextNeedsErrorEvent | SRC/org/openmicroscopy/shoola/env/data/util/StatusLabel.java:280-283 | from a new label, the error text stays "failed" unless an unknown-format or missing-library event arrives |
| ImportStatus.DoneAfterScan | SRC/org/openmicroscopy/shoola/env/data/util/StatusLabel.java:245-274 | import done after a scan of n files, with no later scan: the text is the done text for n and the end time is the done event's clock reading |
| ImportStatus.StatusLabel.constructor | SRC/org/openmicroscopy/shoola/env/data/util/StatusLabel.java:117-127 | a new label shows "pending", has error text "failed", counters at 0, no reader, and is not cancelled |
| ImportStatus.StatusLabel.MarkedAsCancel | SRC/org/openmicroscopy/shoola/env/data/util/StatusLabel.java:130-138 | sets the cancel flag, so that `IsMarkedAsCancel` then answers true, and changes nothing else |
| ImportStatus.StatusLabel.IsMarkedAsCancel | SRC/org/openmicroscopy/shoola/env/data/util/StatusLabel.java:138 | answers the cancel flag of the label's state, whose history over any run `CancelFlagOnlyRises` states |
| ImportStatus.StatusLabel.GetDuration | SRC/org/openmicroscopy/shoola/env/data/util/StatusLabel.java:152 | returns the label's duration, end time minus start time with `long` wrap-around |
| ImportStatus.StatusLabel.SetStatus | SRC/org/openmicroscopy/shoola/env/data/util/StatusLabel.java:173-177 | shows the value, or the empty text for null, and changes nothing else |
| ImportStatus.StatusLabel.Update | SRC/org/openmicroscopy/shoola/env/data/util/StatusLabel.java:236-287 | the fields after an event are exactly the state `Next` gives for the old fields, that event and the clock reading; `IsMarkedAsCancel` answers as before |
| ImportChooser.UnsavedKey | SRC/org/openmicroscopy/shoola/agents/fsimporter/chooser/ImportDialog.java:365-373 | the value-keyed index of unsaved tags has a key exactly for the values some shown unsaved tag carries |
| ImportChooser.UnsavedEntryIsLast | SRC/org/openmicroscopy/shoola/agents/fsimporter/chooser/ImportDialog.java:365-373 | the indexed tag for a value is the last shown unsaved tag with that value |
| ImportChooser.KeptIncomingMembers | SRC/org/openmicroscopy/shoola/agents/fsimporter/chooser/ImportDialog.java:374-382 | an incoming tag is kept exactly when it is saved or no shown unsaved tag has its value |
| ImportChooser.MergeTags | SRC/org/openmicroscopy/shoola/agents/fsimporter/chooser/ImportDialog.java:363-383 | the result is the kept incoming tags in order, followed by the indexed unsaved tags, one per value (as a multiset, since hash-map order is unspecified) |
| ImportChooser.SelfMergeContents | SRC/org/openmicroscopy/shoola/agents/fsimporter/chooser/ImportDialog.java:535-545 | merging the remaining tags with themselves keeps every saved tag and, per unsaved value, exactly the last unsaved tag with it |
| ImportChooser.PixelsSize | SRC/org/openmicroscopy/shoola/agents/fsimporter/chooser/ImportDialog.java:1187-1202 | each axis gets its entered value, or 1 if blank; the sizes are passed on if and only if some axis was entered |
| ImportChooser.Depth | SRC/org/openmicroscopy/shoola/agents/fsimporter/chooser/ImportDialog.java:1183-1186 | the depth is set exactly when partial naming is on and the folder count is non-null and not negative, and then it is that count |
| ImportChooser.TrimEmptyIffBlank | SRC/org/openmicroscopy/shoola/agents/fsimporter/chooser/ImportDialog.java:1159 | the trimmed text is empty if and only if the text has no character above U+0020 |
| ImportChooser.DefaultDatasetName | SRC/org/openmicroscopy/shoola/agents/fsimporter/chooser/ImportDialog.java:1157-1163 | the default dataset is named by the field text, or by the default name when that text is null or blank |
| ImportChooser.IsFileImportable | SRC/org/openmicroscopy/shoola/agents/fsimporter/chooser/ImportDialog.java:1232-1244 | every regular file is importable |
| ImportChooser.AdmissionRule | SRC/org/openmicroscopy/shoola/agents/fsimporter/chooser/ImportDialog.java:1214-1223 | null and hidden entries are refused, regular files admitted, directories admitted exactly when their listing is non-empty, anything else refused |
| ImportChooser.CheckFile | SRC/org/openmicroscopy/shoola/agents/fsimporter/chooser/ImportDialog.java:1214-1223 | appends the entry when it is admitted, and leaves the list alone otherwise |
| ImportChooser.AddFiles | SRC/org/openmicroscopy/shoola/agents/fsimporter/chooser/ImportDialog.java:334-343 | nothing is handed on for a null or empty selection; otherwise the admitted entries of the selection, in order |
| ImportChooser.AdmittedOfMembers | SRC/org/openmicroscopy/shoola/agents/fsimporter/chooser/ImportDialog.java:334-343 | an entry is handed on exactly when it was selected and is admitted |
| ImportChooser.ContainerText | SRC/org/openmicroscopy/shoola/agents/fsimporter/chooser/ImportDialog.java:706-745 | a list, null or unknown object yields the plain message plus "."; a dataset yields the message, " into Dataset: ", the name and "."; a screen yields the plate message, " into Screen: ", the name and "."; a project the plate message, " into Project: ", the name and "." |
| ImportChooser.ListHeaderIgnoresContents | SRC/org/openmicroscopy/shoola/agents/fsimporter/chooser/ImportDialog.java:708-733 | the header of a list does not depend on the list's contents, since the text built for it is discarded |
| ImportChooser.ProjectDatasetsMembers | SRC/org/openmicroscopy/shoola/agents/fsimporter/chooser/ImportDialog.java:930-950 | a dataset is among those of the project containers exactly when some project container has it as a child |
| ImportChooser.OfferedDatasetsMembers | SRC/org/openmicroscopy/shoola/agents/fsimporter/chooser/ImportDialog.java:1000-1011 | a dataset is among the offered ones exactly when a dataset object with that name is offered |
| ImportChooser.ImportDialog.BuildLocationPane | SRC/org/openmicroscopy/shoola/agents/fsimporter/chooser/ImportDialog.java:911-1011 | the datasets become those of the project containers followed by the offered ones; the default field holds the default dataset name, or "new dataset" when the first container is a project and no project holds a dataset |
| ImportChooser.ImportDialog.constructor | SRC/org/openmicroscopy/shoola/agents/fsimporter/chooser/ImportDialog.java:1285-1299 | the dialog starts with the given containers and objects, no tags, the header for its containers, and the datasets and default field `BuildLocationPane` leaves; the type argument is not stored |
| ImportChooser.ImportDialog.HandleTagsSelection | SRC/org/openmicroscopy/shoola/agents/fsimporter/chooser/ImportDialog.java:363-383 | the tags shown afterwards are the merge of those shown before with the selection |
| ImportChooser.ImportDialog.RemoveTag | SRC/org/openmicroscopy/shoola/agents/fsimporter/chooser/ImportDialog.java:535-545 | removing a shown tag shows the merge of the remaining tags with themselves; a press for no shown tag changes nothing |
| ImportChooser.ImportDialog.SetTags | SRC/org/openmicroscopy/shoola/agents/fsimporter/chooser/ImportDialog.java:1357-1377 | a null offer is ignored; otherwise every offered tag lands in exactly one list, selected exactly when its id is that of a shown tag with positive id |
| ImportChooser.ImportDialog.UseFolderAsContainer | SRC/org/openmicroscopy/shoola/agents/fsimporter/chooser/ImportDialog.java:1265-1274 | with no containers, true unless screen import; otherwise false exactly when the first container holds a screen or a dataset |
| ImportChooser.ImportDialog.CreateDataset | SRC/org/openmicroscopy/shoola/agents/fsimporter/chooser/ImportDialog.java:308-316 | a null or blank-named dataset changes nothing; otherwise the list grows by exactly that dataset, and the first one fills the default field |
| ImportChooser.ImportDialog.Reset | SRC/org/openmicroscopy/shoola/agents/fsimporter/chooser/ImportDialog.java:1308-1328 | new containers, objects and type, the header for the new containers, the datasets and default field `BuildLocationPane` leaves for them, and no tags on display |
| SearchResults.OfKind | SRC/org/openmicroscopy/shoola/agents/dataBrowser/view/AdvancedResultSearchModel.java:78-90 | the objects of a class are exactly the results of that kind |
| SearchResults.DisplayableOf | SRC/org/openmicroscopy/shoola/agents/dataBrowser/view/AdvancedResultSearchModel.java:108-128 | the objects that get a node are exactly the image, project, dataset, screen and plate objects |
| SearchResults.Objects | SRC/org/openmicroscopy/shoola/agents/dataBrowser/view/AdvancedResultSearchModel.java:141-142 | the objects behind a list of nodes, position by position |
| SearchResults.CreateDisplays | SRC/org/openmicroscopy/shoola/agents/dataBrowser/view/AdvancedResultSearchModel.java:108-128 | one node per displayable object in input order, an image node for an image and an image set otherwise; every other object is dropped |
| SearchResults.OfKindDisplayable | SRC/org/openmicroscopy/shoola/agents/dataBrowser/view/AdvancedResultSearchModel.java:78-90 | nodes are created for every object of the five classes asked for |
| SearchResults.AppendRankSorted | SRC/org/openmicroscopy/shoola/agents/dataBrowser/view/AdvancedResultSearchModel.java:78-90 | joining two kind-ordered lists, all of the first ranking no later than the second, keeps kind order |
| SearchResults.OneKindRankSorted | SRC/org/openmicroscopy/shoola/agents/dataBrowser/view/AdvancedResultSearchModel.java:78-90 | the objects of one kind are in kind order |
| SearchResults.ByKindIsRankSorted | SRC/org/openmicroscopy/shoola/agents/dataBrowser/view/AdvancedResultSearchModel.java:78-90 | the displays are ordered projects, datasets, images, screens, plates |
| SearchResults.ByKindIsPermutation | SRC/org/openmicroscopy/shoola/agents/dataBrowser/view/AdvancedResultSearchModel.java:78-90 | the displays hold each displayable result exactly as often as it occurs; nothing is lost or added |
| SearchResults.OfGroup | SRC/org/openmicroscopy/shoola/agents/dataBrowser/view/AdvancedResultSearchModel.java:141-149 | a group's list holds exactly the objects with that group id |
| SearchResults.ImagesOf | SRC/org/openmicroscopy/shoola/agents/dataBrowser/view/AdvancedResultSearchModel.java:152-156 | a batch holds exactly the image objects of its group's list |
| SearchResults.FirstImageWithIdIsFirst | SRC/org/openmicroscopy/shoola/agents/dataBrowser/view/AdvancedResultSearchModel.java:201-211 | the search finds the first image display with the id, and finds none only when no display matches |
| SearchResults.Joined | SRC/org/openmicroscopy/shoola/agents/dataBrowser/view/AdvancedResultSearchModel.java:78-90 | appending node lists appends their objects and keeps every node the one built for its object |
| SearchResults.Create | SRC/org/openmicroscopy/shoola/agents/dataBrowser/view/AdvancedResultSearchModel.java:72-76 | null results raise an argument error "No results."; other results give a new model displaying them by kind |
| SearchResults.ImageInItsOwnBatch | SRC/org/openmicroscopy/shoola/agents/dataBrowser/view/AdvancedResultSearchModel.java:141-163 | an object enters the batch of group g exactly when it is an image of group g |
| SearchResults.NoneOfGroup | SRC/org/openmicroscopy/shoola/agents/dataBrowser/view/AdvancedResultSearchModel.java:143-147 | a group none of the objects belongs to has an empty list |
| SearchResults.GroupObjects | SRC/org/openmicroscopy/shoola/agents/dataBrowser/view/AdvancedResultSearchModel.java:140-149 | the map has an entry exactly for each group id met, holding that group's objects in display order |
| SearchResults.ImageBatches | SRC/org/openmicroscopy/shoola/agents/dataBrowser/view/AdvancedResultSearchModel.java:151-163 | a batch is requested exactly for each group with images, holding that group's images in order |
| SearchResults.AdvancedResultSearchModel.constructor | SRC/org/openmicroscopy/shoola/agents/dataBrowser/view/AdvancedResultSearchModel.java:72-93 | the displays show the results by kind, each as the node built for it; no thumbnails, no tables |
| SearchResults.AdvancedResultSearchModel.RegisterTable | SRC/org/openmicroscopy/shoola/agents/dataBrowser/view/AdvancedResultSearchModel.java:99-101 | appends the table to the tables |
| SearchResults.AdvancedResultSearchModel.LoadThumbs | SRC/org/openmicroscopy/shoola/agents/dataBrowser/view/AdvancedResultSearchModel.java:138-164 | a batch is requested exactly for each group with an image among the displays, holding that group's images in display order |
| SearchResults.AdvancedResultSearchModel.SetThumbnail | SRC/org/openmicroscopy/shoola/agents/dataBrowser/view/AdvancedResultSearchModel.java:197-221 | stores the thumbnail under the first image display with the id; afterwards `GetThumbnail` returns the new thumbnail for that image and, for every other object (and for all when nothing matches), what it returned before |
| SearchResults.AdvancedResultSearchModel.GetThumbnail | SRC/org/openmicroscopy/shoola/agents/dataBrowser/view/AdvancedResultSearchModel.java:219-221 | returns the stored thumbnail, or null when the object has none; what it returns after a `SetThumbnail` is stated by that method |
| SearchResults.AdvancedResultSearchModel.NotifyThumbsLoaded | SRC/org/openmicroscopy/shoola/agents/dataBrowser/view/AdvancedResultSearchModel.java:226-230 | refreshes every registered table once, in registration order |

## Left out

- Swing layout and widget construction are not modelled: panels, tag-row wrapping by pixel width, icons, tool bars and window decoration.
- The layout part of `buildLocationPane` is not modelled: its rows and labels, the dataset combo box and its selection, the visibility of the default-container field and of the add button, and the reference class it records. Its data part is `BuildLocationPane`.
- `ImportChooser.ImportDialog.BuildLocationPane`: the reference node of each dataset node is not kept, and a project with no child list counts as one without children.
- Firing property changes is not modelled, because it only notifies listeners outside the model. This covers the import-started event of `update` and `setFiles`, `setFile`, `resetFile` and `setContainerFromFolder`.
- `actionPerformed`, `propertyChange`, showing the dialog and disposing it are not modelled; they only dispatch to the modelled operations or to the window system.
- `importFiles` is modelled only through the values it assembles (`PixelsSize`, `Depth`, `DefaultDatasetName`). The rest of `importFiles` is not modelled:
  - the containers and reference nodes;
  - the thumbnail option read from the registry and the connection speed;
  - the combo-box branch for an existing dataset.
- `createDataset` is modelled without re-sorting the combo box of datasets, because the sorter is not part of this model.
- The event classes are treated as disjoint kinds. The class hierarchy of the import events and error events is not part of this model. If unknown-format or missing-library events were subclasses of the file-exception event, they would take the file-exception branch.
- The reader and used-files fields of a file exception are copied as they come; a null reader is not distinguished from an empty one.
- The domain objects of the search results are compared as values. Java compares them with their own `equals`, which is not part of this model.
- `AdvancedSearchResultCollection.getDataObjects` is modelled as a filter by kind, because that class is not part of this model.
- `ImportChooser.ImportDialog.constructor`: the import type is modelled as a non-screen type after construction. The constructor never stores its type argument, and the constant values of the import types are not part of this model.
- `getType`, `getNodes` and `createDataLoader` are not modelled; they return a constant, a field and null. `loadData` only calls `loadThumbs`, which is `LoadThumbs`.
- The thumbnail loaders, the browser factory, the thumbnail provider and the security contexts are not modelled. `LoadThumbs` returns the batches it would request instead, and `NotifyThumbsLoaded` records each refreshed table in a log.
- The debug prints in `setThumbnail` are not modelled.
- `SearchResults.AdvancedResultSearchModel.LoadThumbs`: the order in which loaders start is not stated, since it follows hash-map order; the result is a map from group to batch.
- Clock readings and the default dataset name of the import are parameters. The date `initComponents` writes in the default-container field is overwritten by `buildLocationPane` before construction ends.
- Pixel sizes are modelled as reals; they are only copied, so floating-point rounding does not arise.
- `getErrorText`, `getReaderType`, `getUsedFiles` and `getSeriesCount` are plain reads of the modelled fields and are not modelled separately.
