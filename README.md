# vicon_projector_server, modelled in Dafny

This project models the logic core of `vicon_projector_server`. The
server projects items onto a canvas at positions reported by a motion
tracker. The model has three parts:

- **The item registry** of the projection server (`Projection_Server`).
  It is a dictionary from item name to item, and each item's graphics
  handle is attached to the plot widget. The model covers the
  add / remove / hide / enumerate / liveness operations and the render
  tick, which re-centres every item on its position.
- **The items.** The base item `tracked_item` is a name, a position, a
  graphics handle, a tracking offset and a stacking value that is
  forwarded to the handle. An `image_item` keeps its handle's rectangle
  centred on its position.
- **The calibration bookkeeping** (`Calibration_Setup`). Two parallel
  lists of axis multipliers are appended to together and deleted from
  together. Their means and population standard deviations are
  recomputed from them. On save, the configured axis ranges are rescaled
  by the means. The sample configuration and the cross-hair rectangle are
  small builders.

Modules:

- `Wrappers`: `Option`, `Result`, `Outcome`.
- `Scene`: the plotting toolkit as the core sees it. A `Handle` has a
  rectangle, a stacking value and a visibility flag. A `PlotWidget` is the
  set of attached handles.
- `TrackedItems`: `Projection_Item/base.py`.
- `ImageItems`: `Projection_Item/image_item.py`. The subclass is modelled
  by composition: `base` is the base-item part of the same object.
- `CanvasServer`: `canvas_server.py`.
- `Calibration`: `calibration.py`.

State that the source updates in place is modelled as class fields:

- the registry dictionary;
- the plot widget's handle set;
- each handle's rectangle, stacking value and visibility;
- the item properties;
- the multiplier lists, the statistics and the configuration.

The builders and the statistics are functions.

The registry invariant, `ProjectionServer.Valid`, has two parts:

- every key is its item's name;
- every registered handle is attached to the plot.

`AddNewItem` always keeps it. `RemoveItem` and the render tick keep it
when a second predicate, `HandlesDistinct`, also holds: no two entries
share one handle. When two entries do share a handle, removing one
detaches the handle for both, and the model states exactly that.

Where the code differs from the behaviour the system is meant to have,
the model follows the code:

- The render tick recomputes the rectangle of every registered item,
  hidden ones included (`canvas_server.py:54-55`). It does not skip
  hidden items.
- Hiding an unknown name raises the dictionary's `KeyError`
  (`canvas_server.py:188-191`). It is not a not-found error of its own.
- Adding a calibration point does not recompute the statistics
  (`calibration.py:157-159`). Deleting one does not either
  (`calibration.py:169-170`). They are recomputed only when the menu table
  is built with at least one sample (`calibration.py:248-250`). With no
  samples left, the old statistics stay.
- An invalid deletion index is reported and ignored
  (`calibration.py:173-175`). It is not an error to the caller.

## Model

| member | source | states |
|---|---|---|
| TrackedItems.TrackedItem.constructor | vicon_projector_server/Projection_Item/base.py:7-20 | stores the name, position and handle (and the tracking offset, default (0, 0)); the handle's stacking value becomes `zValue` only when one is given, otherwise it is untouched; the handle's rectangle and visibility are untouched |
| TrackedItems.TrackedItem.RosCallback | vicon_projector_server/Projection_Item/base.py:24-30 | returns the `NotImplementedError` object and changes nothing |
| TrackedItems.TrackedItem.ViconCallback | vicon_projector_server/Projection_Item/base.py:32-40 | returns the `NotImplementedError` object and changes nothing |
| TrackedItems.TrackedItem.SetName | vicon_projector_server/Projection_Item/base.py:42-51 | after writing the name, reading it gives the written value; no other field changes |
| TrackedItems.TrackedItem.SetHandle | vicon_projector_server/Projection_Item/base.py:53-61 | after writing the handle, reading it gives the written value; no other field changes |
| TrackedItems.TrackedItem.SetPosition | vicon_projector_server/Projection_Item/base.py:64-73 | after writing the position, reading it gives the written value; no other field changes |
| TrackedItems.TrackedItem.SetTrackingOffset | vicon_projector_server/Projection_Item/base.py:75-91 | after writing the offset, reading it gives the written value; no other field changes |
| TrackedItems.TrackedItem.SetZValue | vicon_projector_server/Projection_Item/base.py:102-104 | writing the stacking value forwards it to the handle, so that reading it back gives the value set; no field of the item changes |
| TrackedItems.TrackedItem.ZValueAsWritten | vicon_projector_server/Projection_Item/base.py:93-100 | the getter as written yields the handle's `zValue` method, not a number |
| TrackedItems.TrackedItem.ZValueAsWrittenNeverNumber | vicon_projector_server/Projection_Item/base.py:93-100 | as written, no read of the stacking value equals any number |
| TrackedItems.TrackedItem.ZValue | vicon_projector_server/Projection_Item/base.py:93-100 | the corrected getter gives the number that calling the method returned by the getter as written would give: the handle's stacking value |
| TrackedItems.InitAsWritten | vicon_projector_server/Projection_Item/base.py:7-20 | the base initialiser as written stores the name, position and handle, and leaves the tracking offset unassigned |
| TrackedItems.ReadTrackingOffset | vicon_projector_server/Projection_Item/base.py:75-87 | reading `tracking_offset` succeeds exactly when an offset was assigned, and then gives it; otherwise it raises `AttributeError` on `_tracking_offset` |
| TrackedItems.TrackingOffsetUnsetAsWritten | vicon_projector_server/Projection_Item/base.py:7-20 | as written, reading the offset of any newly initialised base item raises `AttributeError` |
| TrackedItems.TrackingOffsetReadable | vicon_projector_server/Projection_Item/base.py:75-87 | with the corrected constructor, reading the offset gives the stored offset |
| TrackedItems.BindKeywords | vicon_projector_server/Projection_Item/base.py:7-11 | for a call that passes every required parameter (as the call at `Projection_Item/image_item.py:41-45` does), the call binds exactly when every keyword passed is declared; otherwise the `TypeError` names a non-empty set of keywords that were passed and are not declared |
| ImageItems.CenteredRect | vicon_projector_server/Projection_Item/image_item.py:35-38 | the rectangle `(x - w/2, y - h/2, w, h)` has centre `(x, y)`, width `w` and height `h` |
| ImageItems.CenteredRectInverse | vicon_projector_server/Projection_Item/image_item.py:35-38 | a rectangle is the centred rectangle of `p`, `w`, `h` if and only if its centre is `p` and its size is `w` by `h` |
| ImageItems.SuperInitRejectedAsWritten | vicon_projector_server/Projection_Item/image_item.py:41-45 | as written, the call to the base initialiser raises `TypeError` on exactly the keyword `tracking_offset` |
| ImageItems.SuperInitBinds | vicon_projector_server/Projection_Item/image_item.py:41-45 | with the offset declared by the base initialiser, the same call binds |
| ImageItems.ImageItem.constructor | vicon_projector_server/Projection_Item/image_item.py:18-45 | a fresh handle whose rectangle is centred on `position` with the item's width and height; name, position and offset stored (offset default (0, 0)); stacking value `zValue` if given, else the new handle's 0; the handle is shown |
| ImageItems.ImageItem.PositionUpdater | vicon_projector_server/Projection_Item/image_item.py:49-55 | afterwards the rectangle is centred on the current position with the item's size; only the rectangle changes (not width, height, name or position); on an already centred item nothing changes, so a second call is a no-op |
| CanvasServer.InsertHandles | vicon_projector_server/canvas_server.py:150-151 | registering under a new key adds exactly the new item's handle to the registry's handles |
| CanvasServer.InsertDistinct | vicon_projector_server/canvas_server.py:150-151 | after registering under a new key, no two entries share a handle if and only if none did before and the new handle was not yet registered |
| CanvasServer.InsertCount | vicon_projector_server/canvas_server.py:150 | registering under a new key grows the registry by one entry |
| CanvasServer.RemoveHandles | vicon_projector_server/canvas_server.py:167-170 | deleting an entry whose handle no other entry shares removes exactly that handle from the registry's handles |
| CanvasServer.RemoveCount | vicon_projector_server/canvas_server.py:170 | deleting a present key shrinks the registry by one entry |
| CanvasServer.ProjectionServer.constructor | vicon_projector_server/canvas_server.py:14-28 | the server starts with an empty registry over its plot, and the invariant holds |
| CanvasServer.ProjectionServer.TestConnection | vicon_projector_server/canvas_server.py:30-41 | the payload has exactly the key `connection`, and its value is true |
| CanvasServer.ProjectionServer.AddNewItem | vicon_projector_server/canvas_server.py:139-151 | the invariant is kept. A name already present raises `NameError` with that name and changes neither registry nor plot. Otherwise the registry gains exactly the entry `name := item` (others unchanged) and the plot gains exactly the item's handle. Handles stay distinct if and only if they were and the new handle was not registered |
| CanvasServer.ProjectionServer.RemoveItem | vicon_projector_server/canvas_server.py:154-174 | an absent name raises `NameError` and changes nothing. A present name returns true, deletes only that key and detaches only its handle. With distinct handles, the invariant and the distinctness are kept |
| CanvasServer.ProjectionServer.HideItem | vicon_projector_server/canvas_server.py:177-193 | an absent name raises `KeyError`. Otherwise it returns true and the item's visibility becomes `not hide`; only the visibility may change, so the rectangle and the stacking value are unchanged. The registry, the plot, the invariant and the distinctness are unchanged either way |
| CanvasServer.ProjectionServer.GetAllPlotItems | vicon_projector_server/canvas_server.py:100-107 | the payload has exactly the registry's keys (empty for an empty registry), and each entry holds its own key as name and the item's class name as type |
| CanvasServer.ProjectionServer.PositionUpdate | vicon_projector_server/canvas_server.py:51-57 | every registered item is updated, hidden or not. Only rectangles may change: registry, plot, positions, visibility and stacking values are unchanged, and so are the invariant and the distinctness. With distinct handles, every item is centred on its position afterwards |
| CanvasServer.ProjectionServer.UpdateAllItems | vicon_projector_server/canvas_server.py:54-55 | the loop over the registry changes only rectangles, so it keeps the registry, every visibility and every stacking value, and leaves every item centred when handles are distinct |
| Calibration.Mean | vicon_projector_server/calibration.py:77-80 | the mean is the number that, times the count of samples, gives their sum; the mean of one sample is that sample |
| Calibration.PopVariance | vicon_projector_server/calibration.py:78-81 | the population variance, whose square root is the standard deviation, is never negative |
| Calibration.MeanAppend | vicon_projector_server/calibration.py:158-159 | appending a sample turns the mean into `(n * mean + v) / (n + 1)` |
| Calibration.MeanBounds | vicon_projector_server/calibration.py:78 | the mean lies between any lower and upper bound of the samples |
| Calibration.DeviationsFromMeanCancel | vicon_projector_server/calibration.py:254-255 | the deviations of the samples from their mean sum to zero |
| Calibration.StatisticsOfConstant | vicon_projector_server/calibration.py:77-82 | samples that all equal `c` have mean `c` and variance 0 |
| Calibration.Position | vicon_projector_server/calibration.py:169 | an index `del` accepts denotes a position inside the list: itself, or itself plus the length when negative |
| Calibration.DeleteAt | vicon_projector_server/calibration.py:169-170 | `del s[i]` shortens the list by one and keeps the elements before and after the deleted position, in order |
| Calibration.DeleteAtMultiset | vicon_projector_server/calibration.py:169 | deletion removes exactly one occurrence of the element at the position, and nothing else |
| Calibration.DeleteNegativeIndex | vicon_projector_server/calibration.py:169 | the index `i - n` deletes the same element as `i` |
| Calibration.DeleteAtSum | vicon_projector_server/calibration.py:169 | deletion lowers the sum by exactly the deleted sample |
| Calibration.DeleteKeepsParallel | vicon_projector_server/calibration.py:169-170 | deleting the same index from both lists deletes one whole (x, y) sample from the sequence of samples |
| Calibration.AppendKeepsParallel | vicon_projector_server/calibration.py:158-159 | appending to both lists appends one whole (x, y) sample |
| Calibration.SampleConfig | vicon_projector_server/calibration.py:101-124 | the sample configuration has the given monitor, both axes `[0, 200]` (a non-empty range), hostname `0.0.0.0`, port 4000, and no comment entry |
| Calibration.Scale | vicon_projector_server/calibration.py:181-185 | scaling multiplies the width of an axis range by the factor, and keeps a range non-empty under a positive factor |
| Calibration.ScaleTwice | vicon_projector_server/calibration.py:181-185 | scaling twice equals scaling once by the product, so repeated saves compound |
| Calibration.SavedConfig | vicon_projector_server/calibration.py:181-185 | the saved configuration has both axes scaled by their means and the `_COMMENTS_` entry; monitor, hostname and port are kept |
| Calibration.SaveWithUnitMeans | vicon_projector_server/calibration.py:181-185 | saving with both means 1 changes only the comment entry |
| Calibration.ConfigFileName | vicon_projector_server/calibration.py:190-193 | the file name is never empty: the answer when one is given, `projection_config.json` otherwise |
| Calibration.CrossHairRectangle | vicon_projector_server/calibration.py:269-290 | five points whose first equals the last (a closed polyline); every point is a corner `loc ± 15` on each axis; consecutive points differ in exactly one coordinate |
| Calibration.CrossHairCorners | vicon_projector_server/calibration.py:278-290 | the four corners are pairwise distinct and their centroid is `loc` |
| Calibration.Table | vicon_projector_server/calibration.py:251-256 | one row per x multiplier; row `i` holds `i`, both multipliers and their deviations from the means |
| Calibration.TableDeviationsCancel | vicon_projector_server/calibration.py:251-256 | with unrounded means, the x-deviation column of the table sums to zero |
| Calibration.IsYes | vicon_projector_server/calibration.py:155-157 | `answer.upper() == "Y"` holds for exactly the answers `y` and `Y` |
| Calibration.CalibrationSetup.constructor | vicon_projector_server/calibration.py:34-69 | both lists are empty, all four statistics are 0, the tracker position is (1, 1), and the configuration is the sample one with its axes set to the monitor's width and height |
| Calibration.CalibrationSetup.CalculateStatistics | vicon_projector_server/calibration.py:71-88 | with samples, each mean is the rounded mean and each std the rounded square root of the population variance of its list; with none, all four are 0 |
| Calibration.CalibrationSetup.AddCalibrationPoint | vicon_projector_server/calibration.py:137-159 | confirmed exactly on the answer `y` or `Y`. Then both lists gain the tracker coordinate over the target coordinate, per axis; otherwise neither changes. The lists stay parallel |
| Calibration.CalibrationSetup.DeleteCalibrationPoint | vicon_projector_server/calibration.py:163-175 | with parallel lists, the deletion happens exactly for an integer answer in `-n .. n-1`. It removes that position from both lists, which stay parallel; a non-integer or out-of-range answer changes nothing |
| Calibration.CalibrationSetup.ConfirmAndSave | vicon_projector_server/calibration.py:177-199 | the configuration becomes the saved configuration of the current means, and the file name is `ConfigFileName` of the answer |
| Calibration.CalibrationSetup.ViconPositionUpdater | vicon_projector_server/calibration.py:293-299 | the tracker position becomes the first two coordinates reported |
| Calibration.CalibrationSetup.MenuTable | vicon_projector_server/calibration.py:241-267 | with samples, the statistics are recomputed first and the table is `Table` of the lists and the new means; with none, the state is unchanged and the table is empty |

## Left out

- The graphics toolkit. `vicon_canvas.py` is not part of this model: window, monitor geometry, axis ranges, background image, full screen, the `QTimer` of `run_canvas`, `processEvents`, and `plot_calib_point`. A handle is reduced to its rectangle, stacking value and visibility, and the plot to its set of handles.
- Threads and loops that never end: `Projection_Server.run`, `vicon_loop`, `Calibration_Setup.start`, the recursive `menu` and `vicon_tracker`. Their point is concurrency or blocking I/O, and the code holds no locks to model.
- `rpc_server.py` is not part of this model. It does JSON-RPC dispatch through a library.
- File and console I/O: `load_config_data`, the JSON write in `save_config`, the `input()` and `print` calls, and the `tabulate` text of the menu. User answers are method parameters. The menu's constant option lines are not produced.
- Randomness: the random target point of `add_calibration_point` (already rounded to 4 decimals) is a parameter.
- `Calibration.CalibrationSetup.AddCalibrationPoint`: requires non-zero target coordinates. With numpy floats a zero gives an infinite multiplier, which real numbers cannot represent.
- `Calibration.CalibrationSetup.CalculateStatistics`: `np.round(., 6)` and the square root are function parameters, so the standard deviation is stated as the rounded square root of the exact population variance. Floating-point rounding of the mean and variance is not modelled. It requires parallel lists, which every modelled operation keeps; with an empty y list numpy would produce NaN instead.
- `Calibration.CalibrationSetup.MenuTable`: shares the parameters of `CalculateStatistics`. The table is returned as rows, not as formatted text.
- `Calibration.CalibrationSetup.ConfirmAndSave`: the file write and its caught failure are not modelled. The comment entry is added either way, as in the source, where it is set before the file is opened.
- `Calibration.CalibrationSetup.ViconPositionUpdater`: the tracker record is reduced to its position list, which must have at least two coordinates.
- `Calibration.CalibrationSetup.DeleteCalibrationPoint`: an answer that is not an integer is `None`. If the lists were not parallel, the source could delete from the x list and then fail on the y list. The model does the same and reports no deletion.
- Dictionary order: `GetAllPlotItems` and the render tick visit the keys of a map, so the model does not capture the insertion order of the source's iteration.
- `CanvasServer.ProjectionServer.GetAllPlotItems`: the registry holds image items only, so the reported type is always `image_item`. Other item classes are not part of this model.
- `CanvasServer.ProjectionServer.RemoveItem`: the bare `except` also turns a failing toolkit call into `NameError`. The modelled toolkit never fails, so only the missing key raises.
- `ImageItems.ImageItem.constructor`: the image buffer and the `**kwargs` passed on to the toolkit are not modelled.
- `TrackedItems.BindKeywords`: only unexpected keywords are modelled. A missing required parameter and positional arguments, which also raise `TypeError` in Python, are not; the one call modelled passes every required parameter.
- `Calibration.IsYes`: `Upper` maps only the ASCII letters. No other character upper-cases to `Y`, so the confirmation test is the same as Python's.
- `CanvasServer.ProjectionServer.RemoveItem`: the parameter `name` has the default `None` in the source. The model takes a string. A missing name is never a key, so it takes the absent-key path and raises `NameError`.
- Numbers: positions, multipliers and limits are real numbers. Integer literals such as `[0, 200]` and the tracker's `[1, 1]` are modelled as reals.

## Findings

| source | as written | input that shows it | evidently intended | confidence | as-written member | corrected member |
|---|---|---|---|---|---|---|
| vicon_projector_server/Projection_Item/image_item.py:41-45 | `image_item.__init__` passes `tracking_offset=` to `tracked_item.__init__`, which declares only `name`, `handle`, `position` and `zValue` (`Projection_Item/base.py:7-11`). Every construction raises `TypeError` | `image_item("a", img, [0, 0], 1, 1)` | the base initialiser accepts the offset (default `[0.0, 0.0]`) and stores it | not executed; high | ImageItems.SuperInitRejectedAsWritten | TrackedItems.TrackedItem.constructor |
| vicon_projector_server/Projection_Item/base.py:7-20 | `tracked_item.__init__` never assigns `_tracking_offset`, so the `tracking_offset` property (`Projection_Item/base.py:75-87`) raises `AttributeError` on a new item | `tracked_item("a", h, [0, 0]).tracking_offset` | the initialiser stores the offset, so that the property can be read | not executed; high | TrackedItems.TrackingOffsetUnsetAsWritten | TrackedItems.TrackedItem.constructor |
| vicon_projector_server/Projection_Item/base.py:93-100 | the `zValue` getter returns `self.handle.zValue`, the handle's method, without calling it | `item.zValue = 2.0`, then `item.zValue` yields a bound method, not `2.0` | return `self.handle.zValue()`, the number last set | not executed; high | TrackedItems.TrackedItem.ZValueAsWritten | TrackedItems.TrackedItem.SetZValue |
