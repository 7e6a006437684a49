# Helix AI tooling dashboard: the screens' list, gesture and form logic in Dafny

Helix is a Next.js/React dashboard for robotics data work. It runs on mock data and has
screens for annotating video frames, managing trained models, tracking and comparing
experiments, browsing datasets and their items, and uploading a dataset file. Most of each
screen is markup. This project models the parts that compute something, and proves what
those parts promise:

- **Annotation workspace** (`annotation.dfy`, module `AnnotationWorkspace`):
  - the annotation list of one video sample, and the frame/label/search query that lists it;
  - the draw gesture (mouse down, move, up) that commits a bounding box when both signed
    extents exceed 10 source pixels;
  - delete-selected;
  - frame navigation, guarded by the frame range and by the player being ready;
  - the zoom buttons, clamped to [0.5, 2];
  - the label colour switch and `formatTime`.
- **Model registry** (`models.dfy`, `ModelsManagement`):
  - a search plus status filter, then a sort by name, date or accuracy;
  - the sort-button cycle;
  - delete;
  - the header-click selection toggle;
  - the deploy button's guard and label;
  - the status badge.
- **Experiment tracker** (`experiments.dfy`, `ExperimentTracking`):
  - the start/pause/stop status map applied to one id;
  - the search;
  - which buttons each status offers;
  - the badge colour;
  - the local `cn` class-name joiner.
- **Experiment comparison** (`comparison.dfy`, `ExperimentComparison`): the checkbox
  selection list, the chart data cut at the current epoch, and the compare-bar guard.
- **Dataset item explorer** (`items.dfy`, `ItemExplorer`): the type, labeled/unlabeled and
  search filters, and the sorted copy by timestamp, size (digits of the size text) or label
  count, ascending or descending.
- **Dataset list** (`datasets.dfy`, `DatasetList`): the search and the card selection toggle.
- **Upload form** (`upload.dfy`, `UploadForm`):
  - file acceptance by MIME type or extension;
  - the dataset name derived from the file name;
  - the drag state;
  - the upload guard and the button's disabled state.

Shared modules:

- `lists.dfy` (`Lists`): `Option` for `string | null` state, `Array.prototype.filter` and
  `find`, and the click-to-toggle selection.
- `text.dfy` (`Text`): the JavaScript string operations the screens use (`toLowerCase`,
  `includes`, `endsWith`, `split`, `replace`, `padStart`, decimal rendering, digit parsing,
  `join`).
- `sorting.dfy` (`Sorting`): `sort` with a one-key comparator, as an insertion sort over
  number or string keys.

Form of the model:

- Component state that handlers update becomes a class: `Workspace`, `Registry`, `Tracker`,
  `ComparisonPanel`, `Explorer`, `Browser` and `Form`.
  - Each handler is a method that names the fields it writes in `modifies`.
  - Each handler states the new value of every field it writes.
- Filters, sorts, guards and formatters are functions and predicates. Lemmas relate them:
  round trips, idempotence, partitions, and "an action never changes the listing".

Two behaviours of the code are worth stating up front, and the model follows the code in both:

- The comment at `components/annotation-workspace.tsx:546` asks for a positive width and
  height, but the commit test on line 547 compares the signed extents with 10. So an up or
  left drag is always discarded, and `Committed` and `DragOutcome` state exactly that.
- The item explorer's "labeled" and "unlabeled" filters partition the items only when label
  counts are non-negative. A negative count passes both filters (`NegativeCountPassesBoth`).

## Model

| member | source | states |
|---|---|---|
| `Lists.Filter` | components/dataset-explorer.tsx:17-22 | `filter` keeps exactly the elements that satisfy the predicate, in their original order (a subsequence) and each as often as in the input |
| `Lists.FindFirst` | components/models-management.tsx:158 | `find` returns a value exactly when some element matches; the value matches, and no earlier element does |
| `Lists.ToggleChoice` | components/dataset-explorer.tsx:83 | clicking the selected card clears the selection; clicking any other card selects it |
| `Lists.ToggleChoiceTwice` | components/experiment-tracker.tsx:98 | two clicks on the same card restore "this card selected" and "nothing selected"; from another card's selection they end with nothing selected |
| `Text.EndsWith` | app/datasets/upload/page.tsx:45-46 | `endsWith(suffix)` holds exactly when the name is some prefix followed by the suffix |
| `Text.TextBefore` | app/datasets/upload/page.tsx:51 | `split(".")[0]` is the longest prefix without a dot; when it is shorter than the name, a dot follows it |
| `Text.ReplaceChar` | app/datasets/upload/page.tsx:51 | `replace(/_/g, " ")` turns every underscore into a space and keeps every other character |
| `Text.DigitsOf` | components/visualization/DatasetExplorer.tsx:87 | stripping non-digits leaves only digits and never lengthens the text |
| `Text.DigitsOfKeepsDigits` | components/visualization/DatasetExplorer.tsx:87 | a character survives the stripping iff it is a digit of the text |
| `Text.DecimalRoundTrip` | components/ui/ExperimentTracker.tsx:82 | a number written in decimal reads back as the same number |
| `Text.SplitJoinRoundTrip` | components/experiment-tracker.tsx:264 | splitting a non-empty list of space-free words, joined by spaces, gives back the words |
| `Sorting.SortByKey` | components/visualization/DatasetExplorer.tsx:78-104 | the sorted copy is a permutation of its input and in key order (ascending or descending) |
| `Sorting.DistinctKeysStrictlyOrdered` | components/visualization/DatasetExplorer.tsx:99-103 | in a sorted list, of two elements with different keys the smaller key comes first ascending, the larger descending |
| `AnnotationWorkspace.FilteredAnnotations` | components/annotation-workspace.tsx:620-625 | an annotation is listed iff it is on the current frame, the label filter is unset or equal to its label, and the case-sensitive search is empty or occurs in its id or label; the list keeps the original order and multiplicities (the canvas uses the same predicate at lines 432-437) |
| `AnnotationWorkspace.RemoveById` | components/annotation-workspace.tsx:577 | deleting removes exactly the annotations with that id and keeps the others, in order |
| `AnnotationWorkspace.DeleteThenQuery` | components/annotation-workspace.tsx:574-583 | deleting then querying equals querying then deleting, so no query lists the deleted id |
| `AnnotationWorkspace.AnnotationId` | components/annotation-workspace.tsx:549 | the id is "ann-" followed by the decimal digits of the clock reading, which read back as that reading |
| `AnnotationWorkspace.StartDraft` | components/annotation-workspace.tsx:508-524 | mouse down anchors a zero-size rectangle at the cursor divided by the zoom, with the selected label |
| `AnnotationWorkspace.MoveDraft` | components/annotation-workspace.tsx:526-542 | mouse move keeps the anchor and sets the extents so that anchor plus extent is the cursor divided by the zoom |
| `AnnotationWorkspace.Committed` | components/annotation-workspace.tsx:544-561 | a box is committed iff both signed extents exceed 10; it has the frame, the label, type "bounding_box", the anchor as corner and the drawn extents |
| `AnnotationWorkspace.DragOutcome` | components/annotation-workspace.tsx:508-561 | a down-move-up gesture commits iff the cursor moved more than 10 times the zoom right and down; an up or left drag never commits; a committed box has positive extents |
| `AnnotationWorkspace.ColorForLabel` | components/annotation-workspace.tsx:482-505 | a label is drawn gray iff it is not one of the seven coloured palette labels |
| `AnnotationWorkspace.ColoursDistinct` | components/annotation-workspace.tsx:482-505 | different coloured labels get different colours |
| `AnnotationWorkspace.FormatTime` | components/annotation-workspace.tsx:614-618 | definition: minutes by `Math.floor(seconds / 60)`, seconds by `Math.floor` of the truncating remainder, each padded to two digits; its properties are the three lemmas below |
| `AnnotationWorkspace.TwoDigits` | components/annotation-workspace.tsx:617 | a number below 100, padded to two characters, is two digits that read back as the number |
| `AnnotationWorkspace.MinutesSeconds` | components/annotation-workspace.tsx:615-616 | below 100 minutes, the minutes field is below 100, the seconds field (a truncating remainder) below 60, and minutes·60+seconds is the whole seconds elapsed |
| `AnnotationWorkspace.MinutesAndSecondsRoundTrip` | components/annotation-workspace.tsx:617 | minutes below 100 and seconds below 60 render as "mm:ss" whose two fields read back as the numbers |
| `AnnotationWorkspace.FormatTimeRoundTrip` | components/annotation-workspace.tsx:614-618 | below 100 minutes, `formatTime` gives "mm:ss" with ss below 60, and mm·60+ss is the whole seconds elapsed |
| `AnnotationWorkspace.Workspace.constructor` | components/annotation-workspace.tsx:142-188 | the workspace opens on the sample's annotations at frame 1 of 120, zoom 1, with nothing drawn, selected or filtered and the player not ready |
| `AnnotationWorkspace.Workspace.OnPlayerReady` | components/annotation-workspace.tsx:229-235 | the ready callback marks the player ready and sets the frame count |
| `AnnotationWorkspace.Workspace.MouseDown` | components/annotation-workspace.tsx:508-524 | drawing starts with the draft from `StartDraft` |
| `AnnotationWorkspace.Workspace.MouseMove` | components/annotation-workspace.tsx:526-542 | while drawing, the draft moves as `MoveDraft` says; otherwise nothing changes |
| `AnnotationWorkspace.Workspace.MouseUp` | components/annotation-workspace.tsx:544-572 | appends exactly the committed box at the end when drawing and the box is large enough, else leaves the list unchanged; the old list is always a prefix; drawing stops and the draft is cleared (mouse leave is wired to the same handler at line 875) |
| `AnnotationWorkspace.Workspace.Select` | components/annotation-workspace.tsx:1165 | clicking a list entry selects its id |
| `AnnotationWorkspace.Workspace.DeleteSelected` | components/annotation-workspace.tsx:574-583 | with no selection nothing changes; otherwise the selected id's annotations are removed and the selection is cleared |
| `AnnotationWorkspace.Workspace.SetSearch` | components/annotation-workspace.tsx:1118 | the search field sets the search text |
| `AnnotationWorkspace.Workspace.SetFilterLabel` | components/annotation-workspace.tsx:1135-1146 | the label menu sets the filter to a label or clears it |
| `AnnotationWorkspace.Workspace.ToggleLabelFilter` | components/annotation-workspace.tsx:1126 | the filter button clears an active filter, or filters by the first palette label |
| `AnnotationWorkspace.Workspace.PrevDisabled` | components/annotation-workspace.tsx:890-899 | definition: the first-frame and previous-frame buttons are disabled on frame 1 or while the player is not ready; `JumpToFrame` proves that jumping to frame 1 disables them |
| `AnnotationWorkspace.Workspace.NextDisabled` | components/annotation-workspace.tsx:917-926 | definition: the next-frame and last-frame buttons are disabled on the last frame or while the player is not ready; `JumpToFrame` proves that jumping to the last frame disables them |
| `AnnotationWorkspace.Workspace.JumpToFrame` | components/annotation-workspace.tsx:340-353 | moves to frame n and time (n−1)/30 only when the player is ready and 1 ≤ n ≤ totalFrames, else changes nothing; keeps the frame in range; jumping to the first or last frame disables the matching step buttons (lines 889-926) |
| `AnnotationWorkspace.Workspace.NextFrame` | components/annotation-workspace.tsx:355-368 | one frame and 1/30 s forward only when ready and before the last frame; keeps the frame in range |
| `AnnotationWorkspace.Workspace.PrevFrame` | components/annotation-workspace.tsx:370-383 | one frame and 1/30 s back only when ready and after frame 1; keeps the frame in range |
| `AnnotationWorkspace.Workspace.ZoomOutDisabled` | components/annotation-workspace.tsx:821 | definition: the minus button is disabled at zoom 0.5 or below |
| `AnnotationWorkspace.Workspace.ZoomInDisabled` | components/annotation-workspace.tsx:830 | definition: the plus button is disabled at zoom 2 or above |
| `AnnotationWorkspace.Workspace.ZoomOut` | components/annotation-workspace.tsx:820-821 | zoom drops by 0.1 but not below 0.5, and stays in [0.5, 2] |
| `AnnotationWorkspace.Workspace.ZoomIn` | components/annotation-workspace.tsx:829-830 | zoom rises by 0.1 but not above 2, and stays in [0.5, 2] |
| `ModelsManagement.SortedMeansOrdered` | components/models-management.tsx:132-141 | the key sort puts names in ascending code-unit order, dates newest first and accuracies best first |
| `ModelsManagement.FilteredModels` | components/models-management.tsx:123-141 | a model is listed iff the query is empty or occurs (ignoring case) in its name, description or a tag, and the status filter is unset or equal to its status; the list is a permutation of those models, ordered by the sort mode |
| `ModelsManagement.EmptyFilterListsAll` | components/models-management.tsx:126-130 | with no query and no status filter every model is listed |
| `ModelsManagement.NextSortOrder` | components/models-management.tsx:212-233 | the sort button goes date → name → accuracy → date |
| `ModelsManagement.SortCycle` | components/models-management.tsx:212-233 | three presses restore the sort mode and two do not |
| `ModelsManagement.FindModel` | components/models-management.tsx:157-195 | the lookup behind each card-action message finds a model with that id exactly when there is one |
| `ModelsManagement.DeployButton` | components/models-management.tsx:456-466 | the deploy button is shown iff the status is neither "Archived" nor "Training", and reads "Redeploy" iff the model is deployed |
| `ModelsManagement.StatusColor` | components/models-management.tsx:249-264 | the badge is gray iff the status is "Archived" or not one of the five known statuses |
| `ModelsManagement.Registry.constructor` | components/models-management.tsx:113-120 | the registry opens on the given models, sorted by date, with no query, filter, selection or expansion |
| `ModelsManagement.Registry.Search` | components/models-management.tsx:315 | the search field sets the query |
| `ModelsManagement.Registry.SetStatusFilter` | components/models-management.tsx:334-346 | the status menu sets a status or clears the filter |
| `ModelsManagement.Registry.CycleSort` | components/models-management.tsx:212-233 | the sort button advances the sort mode |
| `ModelsManagement.Registry.Delete` | components/models-management.tsx:197-210 | removes exactly the models with that id, keeping the rest in order; clears the selection and the expansion only if they are that id |
| `ModelsManagement.Registry.ClickHeader` | components/models-management.tsx:380-384 | a header click toggles the selection between that id and none, and is ignored while a card is expanding |
| `ModelsManagement.Registry.CardActionSubject` | components/models-management.tsx:157-195 | the deploy, version, download, share and configure handlers only look a model up; the models are unchanged |
| `ExperimentTracking.ActionStatus` | components/experiment-tracker.tsx:43-47 | start, pause and stop map to "Running", "Paused" and "Completed", one to one |
| `ExperimentTracking.ApplyAction` | components/experiment-tracker.tsx:49 | the experiments with the id get the action's status; length, order, every other field and every other experiment are kept |
| `ExperimentTracking.ApplyActionIdempotent` | components/experiment-tracker.tsx:49 | the same action twice has the effect of once |
| `ExperimentTracking.LastActionWins` | components/experiment-tracker.tsx:49 | of two actions on one id only the second counts |
| `ExperimentTracking.FilteredExperiments` | components/experiment-tracker.tsx:28-33 | an experiment is listed iff the query occurs, ignoring case, in its name, description or dataset; the list keeps the original order |
| `ExperimentTracking.EmptySearchKeepsAll` | components/experiment-tracker.tsx:28-33 | an empty query lists every experiment, in order |
| `ExperimentTracking.ActionKeepsListing` | components/experiment-tracker.tsx:28-49 | an action never changes which experiments are listed, nor their order |
| `ExperimentTracking.Offered` | components/experiment-tracker.tsx:169-207 | definition: a selected card offers Start unless running, Pause only while running, and Stop unless completed; its properties are the two lemmas below |
| `ExperimentTracking.ResultsOffered` | components/experiment-tracker.tsx:224 | definition: the Results button is shown for completed experiments only; `ResultsIffNotStoppable` relates it to Stop |
| `ExperimentTracking.OfferedActionsChangeStatus` | components/experiment-tracker.tsx:169-207 | every offered button changes the status; exactly one of Start and Pause is offered; Start or Stop is always offered |
| `ExperimentTracking.OfferedAfterAction` | components/experiment-tracker.tsx:169-207 | after start, Pause and Stop are offered; after pause, Start and Stop; after stop, only Start |
| `ExperimentTracking.ResultsIffNotStoppable` | components/experiment-tracker.tsx:224 | the Results button is shown exactly when Stop is not |
| `ExperimentTracking.StatusBadge` | components/experiment-tracker.tsx:104-113 | the badge is gray iff the status is not running, completed or paused |
| `ExperimentTracking.Cn` | components/experiment-tracker.tsx:263-265 | definition: the truthy arguments, written as `join` writes them, joined by single spaces; its properties are the two lemmas below |
| `ExperimentTracking.CnIgnoresFalsy` | components/experiment-tracker.tsx:263-265 | falsy arguments to `cn` make no difference to its result |
| `ExperimentTracking.CnSplitsIntoClasses` | components/experiment-tracker.tsx:263-265 | when the kept arguments are single class names, splitting the result at spaces gives them back in order |
| `ExperimentTracking.Tracker.constructor` | components/experiment-tracker.tsx:24-26 | the tracker opens on the given experiments with no query and nothing selected |
| `ExperimentTracking.Tracker.Search` | components/experiment-tracker.tsx:74 | the search field sets the query |
| `ExperimentTracking.Tracker.ClickCard` | components/experiment-tracker.tsx:98 | a card click toggles the selection between that id and none |
| `ExperimentTracking.Tracker.Act` | components/experiment-tracker.tsx:42-55 | an action button applies the action map to the id and leaves the listed ids unchanged |
| `ExperimentTracking.Tracker.DownloadSubject` | components/experiment-tracker.tsx:57-62 | the results download only looks the experiment up; nothing changes |
| `ExperimentComparison.ToggleSelection` | components/ui/ExperimentTracker.tsx:60-66 | the id is selected afterwards iff it was not before; other ids keep their membership; a new id is appended at the end; removal keeps the order |
| `ExperimentComparison.FilterKeepsNoDuplicates` | components/ui/ExperimentTracker.tsx:62 | filtering a duplicate-free selection leaves it duplicate-free |
| `ExperimentComparison.ToggleKeepsNoDuplicates` | components/ui/ExperimentTracker.tsx:60-66 | toggling never introduces a duplicate |
| `ExperimentComparison.ToggleTwice` | components/ui/ExperimentTracker.tsx:60-66 | checking then unchecking restores the list exactly; unchecking then re-checking keeps the same selected ids |
| `ExperimentComparison.CompareShown` | components/ui/ExperimentTracker.tsx:239 | definition: the compare bar is shown once more than one experiment is selected |
| `ExperimentComparison.CompareAfterToggle` | components/ui/ExperimentTracker.tsx:239 | the compare bar appears with the second selected experiment and hides when one of two is unchecked |
| `ExperimentComparison.StatusColor` | components/ui/ExperimentTracker.tsx:68-79 | the badge is gray iff the status is not running, completed or failed |
| `ExperimentComparison.ProgressShown` | components/ui/ExperimentTracker.tsx:221 | definition: the progress bar is drawn for running experiments only |
| `ExperimentComparison.JsSliceEnd` | components/ui/ExperimentTracker.tsx:89 | `slice(0, end)` keeps min(end, len) values for end ≥ 0 and max(len + end, 0) for a negative end |
| `ExperimentComparison.Slice` | components/ui/ExperimentTracker.tsx:89 | `slice(0, end)` of a series is the prefix of the series whose length `JsSliceEnd` gives |
| `ExperimentComparison.GetChartData` | components/ui/ExperimentTracker.tsx:81-121 | one label "Epoch i+1" per epoch up to the current one; one series, or two with validation; titles and data from the chosen metric, each cut at the current epoch |
| `ExperimentComparison.EpochLabelsDistinct` | components/ui/ExperimentTracker.tsx:82 | different epochs get different labels |
| `ExperimentComparison.ChartAligned` | components/ui/ExperimentTracker.tsx:81-121 | when every series reaches the current epoch, every line has one point per label, the first values of its series |
| `ExperimentComparison.NegativeEpochChart` | components/ui/ExperimentTracker.tsx:82-89 | a negative current epoch gives no labels, but the series keep all but that many final values |
| `ExperimentComparison.ComparisonPanel.constructor` | components/ui/ExperimentTracker.tsx:56-58 | the panel opens with nothing selected, accuracy shown and validation on |
| `ExperimentComparison.ComparisonPanel.ToggleExperiment` | components/ui/ExperimentTracker.tsx:178-179 | a checkbox toggles its id and keeps the selection duplicate-free |
| `ExperimentComparison.ComparisonPanel.SetMetric` | components/ui/ExperimentTracker.tsx:149 | the metric menu sets the metric |
| `ExperimentComparison.ComparisonPanel.ToggleValidation` | components/ui/ExperimentTracker.tsx:161 | the validation checkbox flips the setting |
| `ItemExplorer.FilteredItems` | components/visualization/DatasetExplorer.tsx:50-75 | an item is kept iff it passes the type filter, the labeled filter and the search; order and multiplicities are kept |
| `ItemExplorer.LabeledMeansPositive` | components/visualization/DatasetExplorer.tsx:57-62 | for a non-negative count, "labeled" keeps exactly positive counts and "unlabeled" exactly absent or zero counts |
| `ItemExplorer.LabeledUnlabeledSplit` | components/visualization/DatasetExplorer.tsx:57-62 | with non-negative counts the labeled and unlabeled lists are disjoint, cover the items, and their lengths add up to the item count |
| `ItemExplorer.NegativeCountPassesBoth` | components/visualization/DatasetExplorer.tsx:57-62 | a negative count passes both label filters |
| `ItemExplorer.SizeKey` | components/visualization/DatasetExplorer.tsx:87-88 | the size key is the number the digit characters of the size text form |
| `ItemExplorer.SizeKeyJoinsDigits` | components/visualization/DatasetExplorer.tsx:87-88 | for "whole.fraction unit" the key is the whole and fraction digits run together |
| `ItemExplorer.SizeKeyOfOnePointTwoGigabytes` | components/visualization/DatasetExplorer.tsx:87-88 | "1.2 GB" gets the key 12 |
| `ItemExplorer.SortedItems` | components/visualization/DatasetExplorer.tsx:78-104 | the sorted copy holds the filtered items, each as often; items with different keys come out ascending for asc and descending for desc |
| `ItemExplorer.TimestampOrder` | components/visualization/DatasetExplorer.tsx:82-85 | sorted by timestamp, items with different times come oldest first for asc and newest first for desc |
| `ItemExplorer.ToggleDirection` | components/visualization/DatasetExplorer.tsx:246 | the sort-order button always changes the direction |
| `ItemExplorer.ToggleDirectionTwice` | components/visualization/DatasetExplorer.tsx:246 | two presses restore the direction |
| `ItemExplorer.ToggleReversesOrder` | components/visualization/DatasetExplorer.tsx:99-103 | reversing the direction reverses the order of any two items with different keys |
| `ItemExplorer.Explorer.constructor` | components/visualization/DatasetExplorer.tsx:41-46 | the explorer opens with all types and items, no search, sorted by timestamp descending, nothing selected |
| `ItemExplorer.Explorer.SetFilters` | components/visualization/DatasetExplorer.tsx:187-221 | the two menus and the search field set the filters |
| `ItemExplorer.Explorer.SetSortBy` | components/visualization/DatasetExplorer.tsx:237 | the sort menu sets the sort key |
| `ItemExplorer.Explorer.ToggleSortOrder` | components/visualization/DatasetExplorer.tsx:246 | the button swaps ascending and descending |
| `ItemExplorer.Explorer.ClickItem` | components/visualization/DatasetExplorer.tsx:106-109 | clicking an item selects it |
| `DatasetList.FilteredDatasets` | components/dataset-explorer.tsx:17-22 | a dataset is listed iff the query occurs, ignoring case, in its name, description or a tag; the list is a subsequence of the datasets |
| `DatasetList.EmptySearchKeepsAll` | components/dataset-explorer.tsx:17-22 | an empty query lists every dataset, in order |
| `DatasetList.NameMatchIsListed` | components/dataset-explorer.tsx:19 | a dataset whose name contains the query in any letter case is listed |
| `DatasetList.LongerQueryNarrows` | components/dataset-explorer.tsx:17-22 | typing more text around a query never lists a dataset the shorter query did not |
| `DatasetList.Browser.constructor` | components/dataset-explorer.tsx:13-15 | the list opens on the given datasets with no query and nothing selected |
| `DatasetList.Browser.Search` | components/dataset-explorer.tsx:55 | the search field sets the query |
| `DatasetList.Browser.ClickCard` | components/dataset-explorer.tsx:83 | a card click toggles the selection between that id and none |
| `DatasetList.Browser.DownloadSubject` | components/dataset-explorer.tsx:38-43 | the download button only looks the dataset up; the datasets and the selection are unchanged |
| `UploadForm.Accepts` | app/datasets/upload/page.tsx:45-46 | definition: a file is accepted when its type is CSV or JSON or its name ends in ".csv" or ".json"; its properties are the two lemmas below |
| `UploadForm.AcceptsByExtension` | app/datasets/upload/page.tsx:45-46 | any file named "*.csv" or "*.json" is accepted whatever its type |
| `UploadForm.RejectsOtherFiles` | app/datasets/upload/page.tsx:45-46 | a file of another type is rejected unless its name ends in ".csv" or ".json" |
| `UploadForm.DerivedName` | app/datasets/upload/page.tsx:51 | the derived name is the file name up to its first dot, underscores read as spaces, with no dot and no underscore in it |
| `UploadForm.DerivedNameOfPlainBase` | app/datasets/upload/page.tsx:51 | "base.ext" with a base free of dots and underscores gives the base |
| `UploadForm.DerivedNameOfDotFile` | app/datasets/upload/page.tsx:50-52 | a name starting with a dot derives the empty name, so the name stays unset |
| `UploadForm.DragActiveAfter` | app/datasets/upload/page.tsx:23-31 | dragenter and dragover activate the drop zone, dragleave deactivates it, other events change nothing |
| `UploadForm.UploadButtonDisabled` | app/datasets/upload/page.tsx:175 | definition: the upload button is disabled without a file or a name, while uploading, or after a successful upload |
| `UploadForm.DisabledCoversGuard` | app/datasets/upload/page.tsx:175 | the button is disabled whenever the upload guard would refuse, and stays disabled during and after an upload |
| `UploadForm.Form.constructor` | app/datasets/upload/page.tsx:16-21 | the form opens with no file, empty name and description, idle and not dragging |
| `UploadForm.Form.SelectFile` | app/datasets/upload/page.tsx:44-54 | an accepted file is set and names the dataset when the name is empty; a rejected file changes nothing |
| `UploadForm.Form.ChooseFiles` | app/datasets/upload/page.tsx:56-60 | the file picker selects its first file, if any |
| `UploadForm.Form.Drop` | app/datasets/upload/page.tsx:33-42 | a drop always deactivates the zone and selects the first dropped file, if any |
| `UploadForm.Form.Drag` | app/datasets/upload/page.tsx:23-31 | a drag event sets the drop zone's state as `DragActiveAfter` says |
| `UploadForm.Form.SetName` | app/datasets/upload/page.tsx:99 | the name field sets the name |
| `UploadForm.Form.Upload` | app/datasets/upload/page.tsx:62-65 | without a file or a name nothing happens; otherwise the upload starts; an enabled button always starts it |

## Left out

- The YouTube player (`components/annotation-workspace.tsx:191-309`) is not modelled: script
  injection, player construction, seeking, the 100 ms polling of the playback time and the
  playback-rate effect. Its ready callback is `OnPlayerReady`, which takes the frame count as
  a parameter. The handlers' `!ytPlayer || !ytPlayerReady` test is the single flag
  `playerReady`.
- The `seekTo` calls in the frame handlers are not modelled, nor the `try`/`catch` around
  them. The model keeps only the state the handlers write.
- Canvas drawing (`components/annotation-workspace.tsx:386-479`) is foreign 2D-context output.
  Only its list of boxes is modelled, and that list is the same query as the side list.
- `AnnotationWorkspace.Workspace.ZoomOut`, `ZoomIn`, `ZoomOutDisabled` and `ZoomInDisabled`
  compute on exact reals, while the code steps the zoom by 0.1 in IEEE doubles. Five presses
  of minus from zoom 1 reach exactly 0.5 in the model and disable the button. In doubles they
  reach 0.5000000000000001, so the code needs a sixth press. Ten presses of plus reach 2 in
  both. Model accuracies and chart values are exact reals too.
- Times are exact reals, not IEEE doubles. `currentTime ± 1/30` and `floor(duration · 30)` are
  therefore exact. `formatTime` is proved only for times from 0 up to 100 minutes, where it
  reads "mm:ss".
- `Workspace.Valid` does not bound the frame count. `JumpToFrame`, `NextFrame` and
  `PrevFrame` promise only that a frame in range stays in range.
- Toasts are side effects with no state and are not modelled.
- `Date.now()` becomes the `now` parameter of `MouseUp`.
- The annotation statistics block is fixed text and is not modelled.
- The workspace never changes `selectedLabel`: nothing calls its setter. It stays the first
  palette label.
- The expand-button debounce (`components/models-management.tsx:267-303`) runs on timers and
  is not modelled. `isTransitioning` is read, never written.
- The upload's two `setTimeout` steps (`app/datasets/upload/page.tsx:68-76`) are not modelled:
  the simulated completion and the redirect. `Upload` covers the immediate effect only.
- `toLowerCase` is modelled on ASCII letters only. Unicode case mapping is not modelled.
- `localeCompare` (model names) is modelled as code-unit order, the same order JavaScript's
  `<` uses on strings. The locale's collation is not modelled.
- `new Date(...)` parsing is not modelled: dates are carried as their already-parsed time
  values.
- The size key is the digits' value. For a size without digits JavaScript gets `NaN`, which
  no comparator can order; the model ranks it as 0 instead.
- `parseInt` of very long digit runs loses precision in JavaScript. The model's key is exact.
- Ties are not modelled. `Sorting.SortByKey` is a stable insertion sort. The item explorer's
  comparator never returns 0, so the engine's order of items with equal keys is unspecified.
  The contracts say nothing about how equal keys are ordered.
- `ModelsManagement.FilteredModels`, `ItemExplorer.SortedItems` and `Sorting.SortByKey` are
  therefore weaker than a particular engine's output: only the order of distinct keys is
  stated, plus the permutation.
- The callbacks the parent passes in (`onSelectItem`, `onViewDetails`, `onCompare`) are not
  modelled. They belong to code outside these screens.
- The progress percentage `Math.round(currentEpoch / epochs · 100)` is floating-point display
  and is not modelled. Only the guard showing the progress bar, `ProgressShown`, is kept.
- Markup-only state is not modelled: open menus, view modes, help panels and the
  description field's text.
