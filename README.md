# PROBoter core logic in Dafny

PROBoter is a platform for automated visual PCB analysis and probing. A
camera finds the chips and pins on a board, four motorised needle probes are
moved onto those pins, and the sampled voltages are analysed to find bus
protocols and their parameters. This project models the sequential logic at
the core of that system and proves properties of it. The system's parts map
onto the model like this:

- **Firmware** (the PROBoter module of its Marlin fork): `Proboter` models
  `probe_z`, which moves down until the probe touches, stops, resyncs and
  retracts. It also models `probe_line`, an edge search whose sign flips and
  whose step halves, and `center_circle`, which moves the centre estimate over
  six fixed directions between passes. Marlin's motion planner is an abstract
  queue of stepper positions. The contact sensor and the track a move passes
  through are parameters of the environment. The calibration points are
  printed as the firmware prints them: each coordinate's "%.3f" text is cut
  to the five characters its 6-byte buffer holds, so 12.345 prints as
  "12.34" (`Proboter.PosStringTruncates`); `Proboter.WidePosStringExact`
  shows that a 10-byte buffer would hold the whole text.
- **Hardware control**:
  - `MoveCoordinator`: the probe move planning rules. These cover continuity
    of the probe order, x-ordering constraints, filler destinations for idle
    probes, where two paths meet on the x-axis, and the phases of the final
    drop.
  - `NetworkManager`: the pin-connectivity bookkeeping, a disjoint-set forest
    plus "not connected" sets.
  - `SignalMultiplexer` and `SimulationSignalMultiplexer`: the multiplexer's
    connection test and release, and the simulated board's state updates.
  - `SignalMultiplexerConfig`, `ProbeConfig` and `AxisDirection`: small enum
    index maps.
  - `ReferenceBoard`: the calibration board's pin layout and the lookup of a
    pin by its diameter.
- **Signal analysis**:
  - `CsvImporter`: the CSV importer.
  - `EventIntervalAnalysis`: Schmitt-trigger event extraction.
  - `DeltaAnalysis`: the delta analysis.
  - `SignalGroups` and `SignalGroupAggregator`: signal groups and their
    aggregation.
  - `ProtocolIdentifier`: protocol identification.
  - `SpiParameterIdentifier` and `UartParameterIdentifier`: SPI and UART
    parameter identification.
  - `RatingUtils`: the rating helpers.
  - `SignalAnalysisResult`: the shared result types.
- **PCB analysis**:
  - `PinDetector`: chip-box clamping in the pin detector.
  - `PinDetectionMetrics`: the pin-detection metric.
  - `Visualization`: point clamping in the drawing helpers.
- **Project storage and API**:
  - `ArrayCodec`: the binary numpy-array column codec, with its round trip.
  - `Validators`: the array shape checker.
  - `CamelCase`: the camelCase key converter.

The shared modules are `Wrappers` (Option, Result and the Python exceptions
raised), `PythonNumeric` (`int()` truncation, banker's `round`, slicing and
`range`) and `Sorting` (`sorted` with a key).

State that the source updates in place is modelled as a Dafny `class`, with a
method per operation. This applies to the firmware's machine state, the
network manager, the simulated multiplexer and the delta analysis's lists.
Each method's `ensures` ties its result, or the new state, to a
specification function, and the guarantees are proved as lemmas about those
functions. Floats are modelled as `real`, and Python's `int()` conversions
and `round` are written out explicitly.

## Model

| member | source | states |
|---|---|---|
| AxisDirection.IndexOf | software/hardware-control/proboter/hardware/axis_direction.py:41 | `list.index`: the result is a position holding the element, and no earlier position holds it |
| AxisDirection.SortedAxes | software/hardware-control/proboter/hardware/axis_direction.py:23-41 | sorting the members by their string value gives X, Y, Z |
| AxisDirection.ToIndex | software/hardware-control/proboter/hardware/axis_direction.py:27-41 | the index is below 3, and X maps to 0, Y to 1 and Z to 2 |
| AxisDirection.ToIndexInjective | software/hardware-control/proboter/hardware/axis_direction.py:41 | different axes get different indices |
| ProbeConfig.ToOrderIndex | software/hardware-control/proboter/model/probe_config.py:40-53 | the index is at most 3, and it is 3 exactly for a type that is not P11, P1 or P2 (the fallthrough) |
| ProbeConfig.OrderIndexValues | software/hardware-control/proboter/model/probe_config.py:44-53 | P11 maps to 0, P1 to 1, P2 to 2 and P21 to 3 |
| ProbeConfig.OrderIndexInjective | software/hardware-control/proboter/model/probe_config.py:47-53 | different probe types get different indices |
| ProbeConfig.OrderIndexReversesDeclaration | software/hardware-control/proboter/model/probe_config.py:31-53 | the i-th declared type (P21, P2, P1, P11) gets index 3 - i, so the order runs right to left |
| SignalMultiplexerConfig.Min | software/hardware-control/proboter/model/signal_multiplexer_config.py:34-40 | `min()` is a channel whose value no channel undercuts |
| SignalMultiplexerConfig.Max | software/hardware-control/proboter/model/signal_multiplexer_config.py:42-48 | `max()` is a channel whose value no channel exceeds |
| SignalMultiplexerConfig.FromInt | software/hardware-control/proboter/model/signal_multiplexer_config.py:50-57 | succeeds exactly for values from min to max, with the channel of that value; any other value fails the assertion |
| SignalMultiplexerConfig.FromIntValue | software/hardware-control/proboter/model/signal_multiplexer_config.py:50-57 | `from_int` of a channel's value gives that channel back |
| SignalMultiplexerConfig.ChannelIdsAreOneToFour | software/hardware-control/proboter/model/signal_multiplexer_config.py:59-65 | `channel_ids()` is [1, 2, 3, 4] |
| SignalMultiplexerConfig.ChannelsInValueOrder | software/hardware-control/proboter/model/signal_multiplexer_config.py:67-74 | `channels()` is ONE, TWO, THREE, FOUR, strictly increasing in value |
| Validators.NpShapeChecker | software/project-storage/project_storage/converter/validators.py:58-84 | the early-exit loop answers true exactly when the ranks agree and every non-negative expected dimension equals the actual one |
| Validators.RankMismatch | software/project-storage/project_storage/converter/validators.py:76-77 | shapes of different rank never match |
| Validators.WildcardsMatchAll | software/project-storage/project_storage/converter/validators.py:80-81 | an all-wildcard expected shape matches exactly the shapes of its rank |
| Validators.ExactShape | software/project-storage/project_storage/converter/validators.py:76-84 | without wildcards a shape matches exactly when it is equal to the expected one |
| Validators.WildcardWidens | software/project-storage/project_storage/converter/validators.py:80-81 | turning an expected dimension into a wildcard keeps every shape that matched |
| Validators.ToNpArrayAccepts | software/project-storage/project_storage/converter/validators.py:52-55 | an input that is not a list is refused before the shape check |
| Visualization.LimitPoint | software/pcb-analysis/pcb_analysis/utils/visualization.py:210-226 | in a non-empty image the result is a pixel, a pixel is unchanged, and a coordinate below 0 becomes 0 and one past the edge becomes the last pixel |
| Visualization.LimitIdempotent | software/pcb-analysis/pcb_analysis/utils/visualization.py:225-226 | limiting twice is the same as limiting once |
| Visualization.LimitEmptyImage | software/pcb-analysis/pcb_analysis/utils/visualization.py:225-226 | with no pixels (width and height at most 0) every point goes to (0, 0), because the outer `max(0, ...)` wins |
| Visualization.CrosshairEnds | software/pcb-analysis/pcb_analysis/utils/visualization.py:154-164 | there are four arm ends, and each one is a pixel of a non-empty image |
| Visualization.CrosshairArms | software/pcb-analysis/pcb_analysis/utils/visualization.py:154-164 | for a centre inside the image, the right, left, lower and upper arms stay on the centre's row or column and end within `int(0.5 * size)` of it |
| ReferenceBoard.InnerBrassPins | software/hardware-control/proboter/tasks/utils/reference_board.py:133-146 | pins 7, 8, 9 and 10 sit at plus or minus half the inner width and height, on the plane z0 = -thickness/2 |
| ReferenceBoard.InnerPinsOpposite | software/hardware-control/proboter/tasks/utils/reference_board.py:133-146 | pins 7 and 8, and pins 9 and 10, are mirror images through the board centre |
| ReferenceBoard.MarkerPositions | software/hardware-control/proboter/tasks/utils/reference_board.py:91-104 | there are markers 1, 3, 6 and 12, all on the z0 plane |
| ReferenceBoard.OuterWhitePins | software/hardware-control/proboter/tasks/utils/reference_board.py:105-118 | there are four outer white pins, all on the z0 plane |
| ReferenceBoard.OuterBrassPins | software/hardware-control/proboter/tasks/utils/reference_board.py:119-132 | there are four outer brass pins on the z0 plane, each on one of the two axes |
| ReferenceBoard.RaisedBrassPins | software/hardware-control/proboter/tasks/utils/reference_board.py:147-160 | the four raised pins lie 12, 10, 8 and 6 below the z0 plane |
| ReferenceBoard.PinByDiameter | software/hardware-control/proboter/tasks/utils/reference_board.py:242-265 | fails with ReferenceBoardException exactly when the diameter is not within epsilon of 7, 8, 9 or 10; otherwise the index is between 0 and 3, the diameter is near 10 - index, and the coordinates are those of inner pin 10 - index |
| ReferenceBoard.DefaultMatchIsUnique | software/hardware-control/proboter/tasks/utils/reference_board.py:243-262 | with epsilon 0.3 a diameter near d in 7..10 is always matched to pin d, at index 10 - d |
| ReferenceBoard.WideToleranceOverlaps | software/hardware-control/proboter/tasks/utils/reference_board.py:255-258 | with epsilon at least 0.5, 7.5 is in the ranges of both 7 and 8, and the first test (pin 7, index 3) wins |
| PinDetector.MinX | software/pcb-analysis/pcb_analysis/pin_detection/pin_detector.py:54 | `bbox[:, 0].min()` is a lower bound of the x coordinates and is one of them |
| PinDetector.MaxX | software/pcb-analysis/pcb_analysis/pin_detection/pin_detector.py:56 | `bbox[:, 0].max()` is an upper bound of the x coordinates and is one of them |
| PinDetector.MinY | software/pcb-analysis/pcb_analysis/pin_detection/pin_detector.py:55 | `bbox[:, 1].min()` is a lower bound of the y coordinates and is one of them |
| PinDetector.MaxY | software/pcb-analysis/pcb_analysis/pin_detection/pin_detector.py:57 | `bbox[:, 1].max()` is an upper bound of the y coordinates and is one of them |
| PinDetector.Clamp | software/pcb-analysis/pcb_analysis/pin_detection/pin_detector.py:59-64 | the x bounds end up in [0, width] and the y bounds in [0, height], and a bound already in range is unchanged |
| PinDetector.ChipCrop | software/pcb-analysis/pcb_analysis/pin_detection/pin_detector.py:53-66 | fails exactly for an empty bounding box (the minimum of nothing raises); otherwise it is the widened box after range adjustment, and no larger than the image |
| PinDetector.MarginWidens | software/pcb-analysis/pcb_analysis/pin_detection/pin_detector.py:54-64 | a larger margin gives a rectangle that contains the smaller margin's one |
| PinDetector.InsideKeepsBox | software/pcb-analysis/pcb_analysis/pin_detection/pin_detector.py:54-66 | a widened box inside the image is cut out unchanged, margin included |
| PinDetector.TruncMonotone | software/pcb-analysis/pcb_analysis/pin_detection/pin_detector.py:54-57 | `int()` truncation is monotone, which is what makes the margin argument work |
| PinDetector.CutOutNext | software/pcb-analysis/pcb_analysis/pin_detection/pin_detector.py:52-68 | one more loop iteration appends the next chip's rectangle and its (min_x, min_y) offset |
| PinDetector.ExtractChips | software/pcb-analysis/pcb_analysis/pin_detection/pin_detector.py:34-70 | fails exactly when some chip has an empty bounding box; otherwise there is one rectangle and one offset per chip, in input order, and offset i is the corner (min_x, min_y) of rectangle i |
| SignalMultiplexer.GetChannelByProbe | software/hardware-control/proboter/hardware/signal_multiplexer.py:129-147 | on success the probe is wired to the returned channel and to no lower-numbered one; a probe wired to no channel raises SignalMultiplexerException |
| SignalMultiplexer.UniqueWiring | software/hardware-control/proboter/hardware/signal_multiplexer.py:138-145 | a probe wired to exactly one channel is found on that channel |
| SignalMultiplexer.InitialStatus | software/hardware-control/proboter/hardware/signal_multiplexer.py:46-51 | a new board's status carries the configuration's id and is not connected |
| SimulationSignalMultiplexer.Index | software/hardware-control/proboter/hardware/simulation/simulation_signal_multiplexer.py:88-100 | the list position `channel.value - 1` is below 4 |
| SimulationSignalMultiplexer.AnalogOutput | software/hardware-control/proboter/hardware/simulation/simulation_signal_multiplexer.py:141-152 | channels 1 and 2 go to ANALOG_A, and 3 and 4 to ANALOG_B |
| SimulationSignalMultiplexer.Partner | software/hardware-control/proboter/hardware/simulation/simulation_signal_multiplexer.py:141-152 | the coupled channel (1 with 2, 3 with 4) is the only other channel on the same analogue output |
| SimulationSignalMultiplexer.PartnerInvolution | software/hardware-control/proboter/hardware/simulation/simulation_signal_multiplexer.py:141-152 | the partner of the partner is the channel itself |
| SimulationSignalMultiplexer.Pulled | software/hardware-control/proboter/hardware/simulation/simulation_signal_multiplexer.py:90-101 | `pull_channel` sets that channel's pull state and level to HIGH and changes nothing else |
| SimulationSignalMultiplexer.Released | software/hardware-control/proboter/hardware/simulation/simulation_signal_multiplexer.py:103-117 | `release_channel` sets that channel's pull state and level to LOW and changes nothing else |
| SimulationSignalMultiplexer.ToDigital | software/hardware-control/proboter/hardware/simulation/simulation_signal_multiplexer.py:119-129 | `connect_to_digital` changes only that channel's switch, to DIGITAL |
| SimulationSignalMultiplexer.ToAnalog | software/hardware-control/proboter/hardware/simulation/simulation_signal_multiplexer.py:131-165 | `connect_to_analog` routes the channel to its pair's output with pull state and level LOW, puts the partner on DIGITAL with its levels kept, and leaves the other pair untouched |
| SimulationSignalMultiplexer.AllReleased | software/hardware-control/proboter/hardware/signal_multiplexer.py:272-279 | after `release_all` every level and pull state is LOW and the switches are unchanged |
| SimulationSignalMultiplexer.InitialSane | software/hardware-control/proboter/hardware/simulation/simulation_signal_multiplexer.py:28-41 | the initial lists (all DIGITAL, all LOW) are well routed and settled |
| SimulationSignalMultiplexer.OperationsKeepSane | software/hardware-control/proboter/hardware/simulation/simulation_signal_multiplexer.py:90-165 | pull, release, connect-to-digital and connect-to-analog each keep the board well routed (no pair both on its output) and settled (level equals pull state, HIGH or LOW) |
| SimulationSignalMultiplexer.ReleaseUndoesPull | software/hardware-control/proboter/hardware/simulation/simulation_signal_multiplexer.py:90-117 | releasing after a pull ends in the same lists as releasing directly |
| SimulationSignalMultiplexer.PullsCommute | software/hardware-control/proboter/hardware/simulation/simulation_signal_multiplexer.py:90-101 | pulls of two channels give the same lists in either order |
| SimulationSignalMultiplexer.PullThenRead | software/hardware-control/proboter/hardware/simulation/simulation_signal_multiplexer.py:78-101 | after a pull of the master, reading a channel gives HIGH for the master and the old level for any other channel |
| SimulationSignalMultiplexer.ConnectionOnlyOnSharedChannel | software/hardware-control/proboter/hardware/signal_multiplexer.py:194-232 | the test succeeds exactly when both probes are found, the test is not pulsed and the test channel is LOW; it then reports a connection exactly when both probes share a channel and leaves the master released; an error leaves the lists unchanged, and a test channel that is not LOW raises SignalMultiplexerException |
| SimulationSignalMultiplexer.Reported | software/hardware-control/proboter/hardware/signal_multiplexer.py:281-305 | the cached status holds the board's lists while connected and the defaults otherwise, with the configuration's id |
| SimulationSignalMultiplexer.InitialStatusReported | software/hardware-control/proboter/hardware/events.py:75-100 | a new, unconnected board's status is already what `_update_status` would store |
| SimulationSignalMultiplexer.SimulatedBoard.constructor | software/hardware-control/proboter/hardware/simulation/simulation_signal_multiplexer.py:28-41 | a new board has all switches DIGITAL, all levels and pull states LOW, and an unconnected status |
| SimulationSignalMultiplexer.SimulatedBoard.UpdateStatus | software/hardware-control/proboter/hardware/signal_multiplexer.py:281-305 | the lists are unchanged and the status becomes the reported one |
| SimulationSignalMultiplexer.SimulatedBoard.Start | software/hardware-control/proboter/hardware/simulation/simulation_signal_multiplexer.py:43-48 | `start` sets connected and leaves the lists unchanged |
| SimulationSignalMultiplexer.SimulatedBoard.Stop | software/hardware-control/proboter/hardware/simulation/simulation_signal_multiplexer.py:50-55 | `stop` clears connected and leaves the lists unchanged |
| SimulationSignalMultiplexer.SimulatedBoard.TestChannel | software/hardware-control/proboter/hardware/simulation/simulation_signal_multiplexer.py:78-88 | `test_channel` returns the stored level at `channel.value - 1`, which is HIGH or LOW |
| SimulationSignalMultiplexer.SimulatedBoard.PullChannel | software/hardware-control/proboter/hardware/simulation/simulation_signal_multiplexer.py:90-101 | the new lists are Pulled of the old ones |
| SimulationSignalMultiplexer.SimulatedBoard.ReleaseChannel | software/hardware-control/proboter/hardware/simulation/simulation_signal_multiplexer.py:103-117 | the new lists are Released of the old ones |
| SimulationSignalMultiplexer.SimulatedBoard.ConnectToDigital | software/hardware-control/proboter/hardware/simulation/simulation_signal_multiplexer.py:119-129 | the new lists are ToDigital of the old ones |
| SimulationSignalMultiplexer.SimulatedBoard.ConnectToAnalog | software/hardware-control/proboter/hardware/simulation/simulation_signal_multiplexer.py:131-165 | the new lists are ToAnalog of the old ones |
| SimulationSignalMultiplexer.SimulatedBoard.ChannelByProbe | software/hardware-control/proboter/hardware/signal_multiplexer.py:129-147 | the channel lookup on this board's configuration: one the probe is wired to, or an error when it is wired to none |
| SimulationSignalMultiplexer.SimulatedBoard.TestProbeConnection | software/hardware-control/proboter/hardware/signal_multiplexer.py:194-232 | the result and the new lists are ConnectionTest of the old lists, and the connected flag is kept |
| SimulationSignalMultiplexer.SimulatedBoard.ReleaseAll | software/hardware-control/proboter/hardware/signal_multiplexer.py:272-279 | channels 1 to 4 are released in turn; the new lists are AllReleased of the old ones |
| PinDetectionMetrics.MatchesOf | software/pcb-analysis/pcb_analysis/metrics/pin_detection_metrics.py:121-126 | a box's match list holds exactly the detections whose centre lies in the closed box, in increasing detection order |
| PinDetectionMetrics.MatchTable | software/pcb-analysis/pcb_analysis/metrics/pin_detection_metrics.py:116-126 | one list per box, and detection i is in box j's list exactly when it lies inside box j |
| PinDetectionMetrics.BoxCountZero | software/pcb-analysis/pcb_analysis/metrics/pin_detection_metrics.py:121-126 | a detection is in no box exactly when no box contains its centre |
| PinDetectionMetrics.MatchPins | software/pcb-analysis/pcb_analysis/metrics/pin_detection_metrics.py:116-126 | the nested loops build the whole match table, one list per box |
| PinDetectionMetrics.Values | software/pcb-analysis/pcb_analysis/metrics/pin_detection_metrics.py:146-172 | with every distance defined, the value list holds one value per true positive |
| PinDetectionMetrics.MeanRbd | software/pcb-analysis/pcb_analysis/metrics/pin_detection_metrics.py:174-176 | `mean_tp_rbd` is 0 without boxes; otherwise it is defined exactly when every distance is, and times the box count it gives the sum |
| PinDetectionMetrics.RbdValues | software/pcb-analysis/pcb_analysis/metrics/pin_detection_metrics.py:146-172 | one distance per true positive |
| PinDetectionMetrics.TruePositiveRbd | software/pcb-analysis/pcb_analysis/metrics/pin_detection_metrics.py:146-172 | the distance loop gives the squared distances and the RbdValues of the true positives |
| PinDetectionMetrics.CalculateSimpleMetric | software/pcb-analysis/pcb_analysis/metrics/pin_detection_metrics.py:105-191 | the method gives SimpleMetric of its inputs: the sorted lists, the squared centre distances, the relative box distances and their mean, or the failed plausibility assertion |
| PinDetectionMetrics.SimpleMetric | software/pcb-analysis/pcb_analysis/metrics/pin_detection_metrics.py:105-191 | a result has one squared distance and one value per true positive, none of the distances negative, and every box is a true positive or a false negative |
| PinDetectionMetrics.TruePositives | software/pcb-analysis/pcb_analysis/metrics/pin_detection_metrics.py:41-46 | one true positive per true-positive match |
| PinDetectionMetrics.Precision | software/pcb-analysis/pcb_analysis/metrics/pin_detection_metrics.py:48-56 | precision lies in [0, 1], is 0 on an empty denominator, and is 1 exactly when there are true positives and no false positives or multiple matches |
| PinDetectionMetrics.Recall | software/pcb-analysis/pcb_analysis/metrics/pin_detection_metrics.py:58-65 | recall lies in [0, 1], is 0 on an empty denominator, and is 1 exactly when there are true positives and no false negatives |
| PinDetectionMetrics.TruePositiveFacts | software/pcb-analysis/pcb_analysis/metrics/pin_detection_metrics.py:130-131 | every true-positive pair is a box index with that box's first match |
| PinDetectionMetrics.BoxesSplit | software/pcb-analysis/pcb_analysis/metrics/pin_detection_metrics.py:130-181 | every box is either a true positive's box or a false negative, so #GT = TP + FN |
| PinDetectionMetrics.NotMatchedMembers | software/pcb-analysis/pcb_analysis/metrics/pin_detection_metrics.py:134-135 | the false negatives are exactly the boxes with an empty match list |
| PinDetectionMetrics.MatchesSplit | software/pcb-analysis/pcb_analysis/metrics/pin_detection_metrics.py:128-133 | true positives plus multiple matches are all the matches, and `all_matches` holds all of them |
| PinDetectionMetrics.AllMatchesMembers | software/pcb-analysis/pcb_analysis/metrics/pin_detection_metrics.py:128-129 | a detection is in `all_matches` exactly when some box's list contains it |
| PinDetectionMetrics.MatchedIffInSomeBox | software/pcb-analysis/pcb_analysis/metrics/pin_detection_metrics.py:121-129 | a detection is in `all_matches` exactly when its centre lies in some box |
| PinDetectionMetrics.UnmatchedMembers | software/pcb-analysis/pcb_analysis/metrics/pin_detection_metrics.py:136-137 | the unmatched list holds exactly the detection indices absent from `all_matches`, in increasing order |
| PinDetectionMetrics.FalsePositivesExact | software/pcb-analysis/pcb_analysis/metrics/pin_detection_metrics.py:136-137 | the false positives are exactly the detections inside no box |
| PinDetectionMetrics.FalseNegativesExact | software/pcb-analysis/pcb_analysis/metrics/pin_detection_metrics.py:134-135 | the false negatives are exactly the boxes containing no detection |
| PinDetectionMetrics.SortedTruePositivesInRange | software/pcb-analysis/pcb_analysis/metrics/pin_detection_metrics.py:140-151 | after sorting, every true-positive pair still names an existing detection and box, so the distance loop's indexing is safe |
| PinDetectionMetrics.TotalLengthStep | software/pcb-analysis/pcb_analysis/metrics/pin_detection_metrics.py:121-126 | one more detection adds its box count to the total length of the match lists |
| PinDetectionMetrics.TotalLengthIsCountSum | software/pcb-analysis/pcb_analysis/metrics/pin_detection_metrics.py:121-126 | the total length of the match lists is the sum of the detections' box counts |
| PinDetectionMetrics.CoveredSplit | software/pcb-analysis/pcb_analysis/metrics/pin_detection_metrics.py:136-137 | the detections inside some box plus the false positives are all the detections |
| PinDetectionMetrics.CountSumCovered | software/pcb-analysis/pcb_analysis/metrics/pin_detection_metrics.py:179-180 | the box counts sum to at least the covered count, and to exactly that when no detection lies in two boxes |
| PinDetectionMetrics.SimpleMetricSucceeds | software/pcb-analysis/pcb_analysis/metrics/pin_detection_metrics.py:178-181 | the box-count assertion always holds, and the metric succeeds exactly when no detection centre lies in two boxes, so #detections = TP + MM + FP exactly then |
| PinDetectionMetrics.RecallOverBoxes | software/pcb-analysis/pcb_analysis/metrics/pin_detection_metrics.py:58-65 | on success recall is the true positives over the number of boxes |
| PinDetectionMetrics.RbdBounds | software/pcb-analysis/pcb_analysis/metrics/pin_detection_metrics.py:152-169 | a true positive's relative box distance lies in [0, 1], and is 1 when the centre is the box centre |
| PinDetectionMetrics.Rbd | software/pcb-analysis/pcb_analysis/metrics/pin_detection_metrics.py:152-169 | the relative box distance is missing exactly for a box of zero width or height |
| PinDetectionMetrics.SquareNonNegative | software/pcb-analysis/pcb_analysis/metrics/pin_detection_metrics.py:165 | a real square is never negative |
| PinDetectionMetrics.SquaredCenterDistance | software/pcb-analysis/pcb_analysis/metrics/pin_detection_metrics.py:165 | the squared distance from the box centre is never negative and is zero at the centre |
| PinDetectionMetrics.SquaredDistances | software/pcb-analysis/pcb_analysis/metrics/pin_detection_metrics.py:146-172 | one squared distance per true positive, none negative |
| RatingUtils.BothOneNone | software/signal-analysis/signal_analysis/protocols/rating_utils.py:49-82 | the shared shape of the width checks: 1 when both conditions hold, 0 when exactly one does, -1 when neither does |
| RatingUtils.HasNumVoltageLevels | software/signal-analysis/signal_analysis/protocols/rating_utils.py:19-22 | 1 exactly when there are exactly `num_levels` main levels, else -1, never 0 |
| RatingUtils.HasMinimumNumVoltageLevels | software/signal-analysis/signal_analysis/protocols/rating_utils.py:25-30 | 1 on the exact count, 0 for another count above two, -1 otherwise |
| RatingUtils.MinimumCountAtLeastExact | software/signal-analysis/signal_analysis/protocols/rating_utils.py:19-30 | the minimum-count rating is never below the exact-count rating, and they agree on 1 |
| RatingUtils.IsVoltageInRange | software/signal-analysis/signal_analysis/protocols/rating_utils.py:33-37 | 1 exactly when the lowest main level is at least the minimum and the highest at most the maximum, else 0; with no levels indexing raises IndexError |
| RatingUtils.VoltageRangeMonotone | software/signal-analysis/signal_analysis/protocols/rating_utils.py:33-37 | a wider voltage range never rates a signal lower |
| RatingUtils.IsTransmissionSpeedFasterThan | software/signal-analysis/signal_analysis/protocols/rating_utils.py:40-46 | -1 exactly without a double event duration, 1 exactly when it is at least the minimum speed, else 0 |
| RatingUtils.SpeedBoundMonotone | software/signal-analysis/signal_analysis/protocols/rating_utils.py:40-46 | a lower speed bound never gives a lower rating |
| RatingUtils.CheckVoltageWidths | software/signal-analysis/signal_analysis/protocols/rating_utils.py:49-58 | 1 when the lowest level is wide enough and the upper one narrower than its bound, 0 when exactly one of these holds, -1 when neither does |
| RatingUtils.AreVoltageWidthsLargerThan | software/signal-analysis/signal_analysis/protocols/rating_utils.py:61-70 | the same both / one / none rating for "both widths at least their bounds" |
| RatingUtils.AreVoltageWidthsLowerThan | software/signal-analysis/signal_analysis/protocols/rating_utils.py:73-82 | the same both / one / none rating for "both widths at most their bounds" |
| RatingUtils.WidthChecksAreBothOneNone | software/signal-analysis/signal_analysis/protocols/rating_utils.py:49-82 | each of the three width checks is the both / one / none rating of its own two comparisons |
| RatingUtils.WidthsLargerAndLower | software/signal-analysis/signal_analysis/protocols/rating_utils.py:61-82 | with the same bounds, "larger than" and "lower than" both give 1 only when the widths equal the bounds |
| RatingUtils.IsLongestVoltageLevelInRange | software/signal-analysis/signal_analysis/protocols/rating_utils.py:85-102 | 1 when the longest-held voltage lies within the given shares of the highest level, 0 when it lies instead within the tolerated shares and both are given, else -1; no levels raise IndexError and a missing voltage raises TypeError |
| RatingUtils.ToleranceOnlyRaises | software/signal-analysis/signal_analysis/protocols/rating_utils.py:96-102 | without both tolerated shares the rating is never 0, and giving them never lowers it |
| RatingUtils.IsBlockDurationInRange | software/signal-analysis/signal_analysis/protocols/rating_utils.py:105-115 | 0 exactly without transmission blocks; 1 exactly when the block lasts strictly between the two multiples of the double event duration; a block without a double event duration raises TypeError |
| RatingUtils.HasNumSingleEventPeaks | software/signal-analysis/signal_analysis/protocols/rating_utils.py:118-122 | 1 exactly when the number of recurring durations is `num_peaks`, else -1 |
| RatingUtils.HasTransmissionBlocks | software/signal-analysis/signal_analysis/protocols/rating_utils.py:125-128 | 1 exactly when there is a block duration, else 0 |
| RatingUtils.HasNoTransmissionBlocks | software/signal-analysis/signal_analysis/protocols/rating_utils.py:131-134 | 1 exactly when there is no block duration, else 0 |
| RatingUtils.BlockRatingsComplement | software/signal-analysis/signal_analysis/protocols/rating_utils.py:125-134 | the block rating and the no-block rating always sum to 1 |
| RatingUtils.AreStateDurationsIntMultiple | software/signal-analysis/signal_analysis/protocols/rating_utils.py:137-140 | 1 exactly when the state durations are integer multiples, else 0 |
| RatingUtils.AreStateDurationsNotIntMultiple | software/signal-analysis/signal_analysis/protocols/rating_utils.py:143-146 | 1 exactly when they are not, else 0 |
| RatingUtils.MultipleRatingsComplement | software/signal-analysis/signal_analysis/protocols/rating_utils.py:137-146 | the two multiple ratings always sum to 1 |
| RatingUtils.HasNumEventPairs | software/signal-analysis/signal_analysis/protocols/rating_utils.py:149-157 | 1 on the exact number of event pairs, 0 on the tolerated number when one is given, else -1 |
| RatingUtils.ToleratedExactCount | software/signal-analysis/signal_analysis/protocols/rating_utils.py:149-157 | tolerating the exact count itself changes nothing, and the rating is then never 0 |
| RatingUtils.AreEventDurationsSymmetric | software/signal-analysis/signal_analysis/protocols/rating_utils.py:160-163 | 1 exactly when the event durations are symmetric, else 0 |
| RatingUtils.AreRepeatingPatternsInRange | software/signal-analysis/signal_analysis/protocols/rating_utils.py:166-173 | -1 exactly without a repeating pattern, 1 exactly when its length lies in the closed range, else 0 |
| RatingUtils.PatternRangeMonotone | software/signal-analysis/signal_analysis/protocols/rating_utils.py:166-173 | a wider pattern range never rates a signal lower |
| ArrayCodec.ToBytesBE | software/project-storage/project_storage/model/database.py:72-75 | the big-endian encoding of a number into k bytes is k bytes long |
| ArrayCodec.U32 | software/project-storage/project_storage/model/database.py:72-75 | `to_bytes(4, 'big')` gives 4 bytes for numbers below 2^32 and raises OverflowError otherwise |
| ArrayCodec.FromToBytes | software/project-storage/project_storage/model/database.py:86-89 | reading back the big-endian bytes of a number small enough for them gives the number |
| ArrayCodec.U32RoundTrip | software/project-storage/project_storage/model/database.py:72-86 | `int.from_bytes` of `to_bytes(4, 'big')` gives the number back |
| ArrayCodec.Header | software/project-storage/project_storage/model/database.py:69-75 | the header exists exactly when the rank and every dimension fit in 32 bits, and is 4 bytes per dimension plus 4 |
| ArrayCodec.Dims | software/project-storage/project_storage/model/database.py:73-75 | the per-dimension part exists exactly when every dimension fits in 32 bits, and holds dimension i, big-endian, at bytes 4i to 4i+4 |
| ArrayCodec.Slice | software/project-storage/project_storage/model/database.py:86-92 | Python's clamped slice is the plain subsequence when the bounds are in range |
| ArrayCodec.ShapeOf | software/project-storage/project_storage/model/database.py:86-89 | the decoded shape has `num_dims` entries, and entry i is read from bytes 4(i+1) to 4(i+2) |
| ArrayCodec.Decode | software/project-storage/project_storage/model/database.py:80-96 | None decodes to None; bytes decode to an array or raise ValueError, and a decoded array has the column's dtype and exactly as many bytes as its shape needs |
| ArrayCodec.BuildHeader | software/project-storage/project_storage/model/database.py:69-75 | the header-building loop gives Header of the shape, or the OverflowError of the first number that does not fit |
| ArrayCodec.DimsError | software/project-storage/project_storage/model/database.py:72-75 | the only way building the header fails is an OverflowError |
| ArrayCodec.ToDbValue | software/hardware-control/proboter/model/fields.py:54-72 | `to_db_value` gives Encode of its input |
| ArrayCodec.ReadShape | software/hardware-control/proboter/model/fields.py:80-83 | the shape-reading loop gives ShapeOf of the bytes |
| ArrayCodec.ToPythonValue | software/hardware-control/proboter/model/fields.py:74-90 | `to_python_value` gives Decode of its input |
| ArrayCodec.EncodedLength | software/project-storage/project_storage/model/database.py:69-78 | the encoding is 4(ndim+1) header bytes followed by exactly the array's data |
| ArrayCodec.EncodeFails | software/project-storage/project_storage/model/database.py:61-67 | encoding fails exactly on a value that is not an array, on a wrong dtype (AssertionError) or on a number beyond 32 bits; None stays None |
| ArrayCodec.DimRoundTrip | software/project-storage/project_storage/model/database.py:74-89 | the decoder reads dimension i of an encoding back as dimension i |
| ArrayCodec.HeaderRoundTrip | software/project-storage/project_storage/model/database.py:69-92 | the decoder reads an encoding's rank, its shape and its data back |
| ArrayCodec.ExactQuotient | software/project-storage/project_storage/model/database.py:94 | a byte count that is a whole number of elements is accepted by `frombuffer` and gives that number of elements |
| ArrayCodec.RoundTrip | software/project-storage/project_storage/model/database.py:61-96 | decoding the encoding of a well-shaped array gives the same array back (same dtype, shape and bytes) |
| ArrayCodec.DecodeWhole | software/project-storage/project_storage/model/database.py:80-96 | decoding a well-shaped array's header followed by its data gives that array |
| ArrayCodec.NonePassesThrough | software/project-storage/project_storage/model/database.py:61-83 | None passes through both directions |
| ArrayCodec.StringFieldToPython | software/hardware-control/proboter/model/fields.py:40-44 | the string field returns None and ndarray inputs unchanged, and parses only text |
| CamelCase.Upper | software/hardware-control/proboter/api/utils/converter.py:54-55 | upper-casing maps '_' to '_' only, and lower-case letters to upper-case ones |
| CamelCase.Lower | software/hardware-control/proboter/api/utils/converter.py:54-55 | lower-casing maps '_' to '_' only, and upper-case letters to lower-case ones |
| CamelCase.LowerAll | software/hardware-control/proboter/api/utils/converter.py:54-55 | lower-casing a string character by character keeps its length |
| CamelCase.Capitalize | software/hardware-control/proboter/api/utils/converter.py:54-55 | `str.capitalize()` keeps the length, upper-cases the first character, lower-cases the rest, and has a '_' exactly when its input has one |
| CamelCase.Split | software/hardware-control/proboter/api/utils/converter.py:54-55 | `str.split('_')` gives at least one segment, and no segment contains '_' |
| CamelCase.JoinSplit | software/hardware-control/proboter/api/utils/converter.py:54-55 | joining the split segments with '_' gives the string back |
| CamelCase.SplitJoin | software/hardware-control/proboter/api/utils/converter.py:54-55 | splitting the join of segments free of '_' gives the segments back |
| CamelCase.SplitNoSeparator | software/hardware-control/proboter/api/utils/converter.py:54 | a string without '_' splits into itself alone |
| CamelCase.SplitPrepend | software/hardware-control/proboter/api/utils/converter.py:54 | splitting `a + "_" + t` gives `a` followed by the split of `t` |
| CamelCase.Segment | software/hardware-control/proboter/api/utils/converter.py:54-55 | a later segment becomes non-empty text, which has a '_' exactly when the segment was empty (so `or '_'` applies) |
| CamelCase.CamelOfSegments | software/hardware-control/proboter/api/utils/converter.py:54-55 | camel-casing the join of segments keeps the first segment and converts every later one |
| CamelCase.NoUnderscoreUnchanged | software/hardware-control/proboter/api/utils/converter.py:54-55 | a name without '_' is left unchanged |
| CamelCase.FirstSegmentKept | software/hardware-control/proboter/api/utils/converter.py:54 | the part before the first '_' is kept verbatim at the front of the result |
| CamelCase.SegmentsUnderscore | software/hardware-control/proboter/api/utils/converter.py:54-55 | converted later segments contain a '_' exactly when one of them was empty |
| CamelCase.CamelUnderscore | software/hardware-control/proboter/api/utils/converter.py:54-55 | the result has a '_' exactly when the name has an empty segment after the first |
| CamelCase.CamelExample | software/hardware-control/proboter/api/utils/converter.py:54-55 | `pin_id` becomes `pinId` |
| CamelCase.CamelEmptySegmentExample | software/hardware-control/proboter/api/utils/converter.py:54-55 | `a__b` becomes `a_B`: the empty segment becomes '_' |
| CamelCase.IndexOf | software/hardware-control/proboter/api/utils/converter.py:72 | the position of a key in a dictionary, or the length when the key is absent |
| CamelCase.Remove | software/hardware-control/proboter/api/utils/converter.py:72 | `dict.pop` removes one entry |
| CamelCase.Store | software/hardware-control/proboter/api/utils/converter.py:77 | `d[k] = v` adds at most one entry |
| CamelCase.RemoveFacts | software/hardware-control/proboter/api/utils/converter.py:72 | popping a key removes exactly that key and keeps the keys distinct and the values valid |
| CamelCase.StoreFacts | software/hardware-control/proboter/api/utils/converter.py:77 | storing a key adds exactly that key and keeps the keys distinct and the values valid |
| CamelCase.Step | software/hardware-control/proboter/api/utils/converter.py:68-77 | one turn of the loop removes the popped key and adds its camelCase form, never growing the dictionary, and keeps it a proper dictionary |
| CamelCase.Replay | software/hardware-control/proboter/api/utils/converter.py:68-77 | the loop over the snapshot of the keys keeps the dictionary proper |
| CamelCase.ConvertValue | software/hardware-control/proboter/api/utils/converter.py:58-79 | non-dictionaries are returned as they are, a dictionary stays a dictionary, and the result is no deeper than the input |
| CamelCase.ConvertDictToCamelcase | software/hardware-control/proboter/api/utils/converter.py:58-79 | the in-place conversion, with its recursive call on nested dictionaries, gives ConvertValue of its input |
| CamelCase.ReplayStep | software/hardware-control/proboter/api/utils/converter.py:68-77 | each turn of the loop works on the dictionary the previous turn left behind |
| CamelCase.PopAndStore | software/hardware-control/proboter/api/utils/converter.py:69-77 | the loop body (pop, recursive conversion, store) gives Step of the dictionary |
| CamelCase.ReplayKeys | software/hardware-control/proboter/api/utils/converter.py:68-77 | after the loop every key is either untouched or the camelCase form of a popped key, and no entry was added |
| CamelCase.ConvertedKeys | software/hardware-control/proboter/api/utils/converter.py:58-79 | every key of a converted dictionary is the camelCase form of an original key, and no entry is added |
| CamelCase.Converted | software/hardware-control/proboter/api/utils/converter.py:68-77 | the entry-by-entry conversion keeps the number of entries |
| CamelCase.NoClashStep | software/hardware-control/proboter/api/utils/converter.py:69-77 | without a clash, a turn pops the first key and appends its converted entry at the end |
| CamelCase.NoClashTurn | software/hardware-control/proboter/api/utils/converter.py:68-77 | without a clash, one turn moves the first entry to the end, converted, and the remaining entries still clash with nothing |
| CamelCase.ReplayNoClash | software/hardware-control/proboter/api/utils/converter.py:68-77 | without a clash, the loop turns the entries into their converted forms, in order, behind the already converted ones |
| CamelCase.ConvertWithoutClash | software/hardware-control/proboter/api/utils/converter.py:58-79 | without a clash the result holds every entry in its original order, under its camelCase key and with its value converted (so values are kept and nested dictionaries converted) |
| CamelCase.StepFront | software/hardware-control/proboter/api/utils/converter.py:69-77 | a turn for the first key, whose value is not a dictionary, pops it and stores its value under the camelCase key |
| CamelCase.TurnOverwrites | software/hardware-control/proboter/api/utils/converter.py:72-77 | popping a key whose camelCase form is the next key stores its value over that key's entry |
| CamelCase.TurnKeeps | software/hardware-control/proboter/api/utils/converter.py:72-77 | popping a key already in camelCase stores its entry back |
| CamelCase.TurnMovesLast | software/hardware-control/proboter/api/utils/converter.py:72-77 | popping a key already in camelCase that is not last moves its entry to the end |
| CamelCase.EarlierKeyWins | software/hardware-control/proboter/api/utils/converter.py:68-77 | when a key comes before the existing key that is its camelCase form, its store overwrites that key's value before that key is popped, so the EARLIER value is kept |
| CamelCase.LaterKeyWins | software/hardware-control/proboter/api/utils/converter.py:68-77 | with the camelCase key first, the later key's value is the one kept |
| CamelCase.CollidingKeys | software/hardware-control/proboter/api/utils/converter.py:54-55 | `pin_id` and `pinId` have the same camelCase form |
| PythonNumeric.Trunc | software/signal-analysis/signal_analysis/protocols/uart_parameter_identifier.py:111 | `int(x)` truncates toward zero: the integer part of x, below or at x for x >= 0 and above or at x for x < 0, within 1 |
| PythonNumeric.RoundHalfEven | software/signal-analysis/signal_analysis/protocols/uart_parameter_identifier.py:122 | `round(x)` is an integer within 1/2 of x, the even one when x lies halfway |
| PythonNumeric.RoundOfInteger | software/signal-analysis/signal_analysis/protocols/uart_parameter_identifier.py:122 | rounding an integer gives it back |
| PythonNumeric.SliceBound | software/signal-analysis/signal_analysis/protocols/uart_parameter_identifier.py:212 | a slice bound is clamped to the list: a negative one counts from the end, one past either end stops there |
| PythonNumeric.PySlice | software/signal-analysis/signal_analysis/protocols/uart_parameter_identifier.py:212 | `s[lo:hi]` has as many elements as lie between the clamped bounds, none when they cross, and its k-th element is the list's element k places after the clamped lower bound |
| PythonNumeric.PySliceInRange | software/signal-analysis/signal_analysis/protocols/uart_parameter_identifier.py:293 | with bounds inside the list the slice is the plain subsequence |
| PythonNumeric.RangeLen | software/signal-analysis/signal_analysis/protocols/uart_parameter_identifier.py:211-215 | `len(range(0, stop, step))` for a positive step: 0 for stop <= 0, else the least count whose multiple of step reaches stop |
| Sorting.InsertElements | software/hardware-control/proboter/hardware/move_coordinator.py:84-85 | inserting adds exactly the new element |
| Sorting.InsertFacts | software/hardware-control/proboter/hardware/move_coordinator.py:84-85 | inserting into a sorted list adds exactly the element and keeps the list sorted |
| Sorting.SortByFacts | software/hardware-control/proboter/hardware/move_coordinator.py:84-85 | `sorted(..., key=...)` orders by the key and is a permutation of its input |
| Sorting.SortBy | software/hardware-control/proboter/hardware/move_coordinator.py:84-85 | `sorted(..., key=...)` by insertion; SortByFacts states that it orders by the key and is a permutation of its input, SortByStable that it is stable |
| Sorting.InsertWithKey | software/pcb-analysis/pcb_analysis/metrics/pin_detection_metrics.py:140 | an inserted element comes before every element of its own key |
| Sorting.SortByStable | software/pcb-analysis/pcb_analysis/metrics/pin_detection_metrics.py:140 | `sorted` is stable: the elements of each key appear in the result in their input order |
| CsvImporter.FirstIndex | software/signal-analysis/signal_analysis/importer/csv_importer.py:50 | the first occurrence of a character: it is at that index and not before |
| CsvImporter.Split | software/signal-analysis/signal_analysis/importer/csv_importer.py:50 | `str.split(sep)` gives at least one piece, none containing the separator |
| CsvImporter.JoinSplit | software/signal-analysis/signal_analysis/importer/csv_importer.py:50 | joining the pieces with the separator gives the text back |
| CsvImporter.OccurrencesSplit | software/signal-analysis/signal_analysis/importer/csv_importer.py:50 | occurrences of a character add up over a concatenation |
| CsvImporter.NoOccurrences | software/signal-analysis/signal_analysis/importer/csv_importer.py:50 | a character that is absent occurs 0 times |
| CsvImporter.SplitCount | software/signal-analysis/signal_analysis/importer/csv_importer.py:50 | there is one more line than there are line breaks |
| CsvImporter.TrimStart | software/signal-analysis/signal_analysis/importer/csv_importer.py:52-54 | `lstrip` never lengthens a line |
| CsvImporter.TrimEnd | software/signal-analysis/signal_analysis/importer/csv_importer.py:52-54 | `rstrip` never lengthens a line |
| CsvImporter.TrimStartMeans | software/signal-analysis/signal_analysis/importer/csv_importer.py:52-54 | left stripping keeps a suffix that does not start with white space and cuts off only white space |
| CsvImporter.TrimEndMeans | software/signal-analysis/signal_analysis/importer/csv_importer.py:52-54 | right stripping keeps a prefix that does not end with white space and cuts off only white space |
| CsvImporter.StripMeans | software/signal-analysis/signal_analysis/importer/csv_importer.py:52-54 | the stripped line is the part of the line between its leading and its trailing white space, and everything cut off is white space |
| CsvImporter.Strip | software/signal-analysis/signal_analysis/importer/csv_importer.py:52-54 | the stripped line is no longer than the line and neither starts nor ends with white space |
| CsvImporter.StripEnds | software/signal-analysis/signal_analysis/importer/csv_importer.py:52-54 | a stripped line neither starts nor ends with white space |
| CsvImporter.StripIdempotent | software/signal-analysis/signal_analysis/importer/csv_importer.py:52-54 | stripping twice is the same as stripping once |
| CsvImporter.CleanLines | software/signal-analysis/signal_analysis/importer/csv_importer.py:52-54 | the cleaned list is no longer than the input and holds no empty line |
| CsvImporter.CleanLinesStripped | software/signal-analysis/signal_analysis/importer/csv_importer.py:52-54 | every kept line is already stripped |
| CsvImporter.CleanLinesKeep | software/signal-analysis/signal_analysis/importer/csv_importer.py:52-54 | every line that is not blank is kept, in stripped form |
| CsvImporter.Cells | software/signal-analysis/signal_analysis/importer/csv_importer.py:57 | a CSV line has at least one cell |
| CsvImporter.AddCell | software/signal-analysis/signal_analysis/importer/csv_importer.py:69-73 | a cell goes into column i: an empty cell repeats the column's last value, any other is parsed; it fails on a cell past the named columns, an empty cell in an empty column, or an unparsable cell; the other columns are untouched |
| CsvImporter.AddRow | software/signal-analysis/signal_analysis/importer/csv_importer.py:69-73 | a row keeps the number of columns |
| CsvImporter.AddRows | software/signal-analysis/signal_analysis/importer/csv_importer.py:68-73 | the data rows keep the number of columns |
| CsvImporter.AddRowGrows | software/signal-analysis/signal_analysis/importer/csv_importer.py:69-73 | a row of n cells adds one value to each of the first n columns and leaves the rest |
| CsvImporter.FullRowsFillColumns | software/signal-analysis/signal_analysis/importer/csv_importer.py:68-73 | when every data row fills every column, each column holds one value per data row |
| CsvImporter.AddRowKeepsLater | software/signal-analysis/signal_analysis/importer/csv_importer.py:69-73 | the cells before position n never touch column n or a later one |
| CsvImporter.EmptyCellRepeats | software/signal-analysis/signal_analysis/importer/csv_importer.py:72 | an empty cell in column i repeats the value that column held before the row |
| CsvImporter.Resolution | software/signal-analysis/signal_analysis/importer/csv_importer.py:60 | the resolution fails exactly when there is no line or its first cell is not a number |
| CsvImporter.EmptyColumns | software/signal-analysis/signal_analysis/importer/csv_importer.py:66 | one empty list per channel name |
| CsvImporter.DataRows | software/signal-analysis/signal_analysis/importer/csv_importer.py:57-68 | the data rows are the cells of every line after the first two |
| CsvImporter.Signals | software/signal-analysis/signal_analysis/importer/csv_importer.py:78-88 | one signal per name, numbered by column, with source filename + "/" + name, its column's values, and the shared resolution and start time |
| CsvImporter.ImportCsv | software/signal-analysis/signal_analysis/importer/csv_importer.py:57-63 | fewer than two non-blank lines is an error (the reader runs out) |
| CsvImporter.ImportFacts | software/signal-analysis/signal_analysis/importer/csv_importer.py:60-88 | on success there is one signal per header name, with index = column, source = filename + "/" + name, and the shared resolution and start time |
| CsvImporter.FullRowsGiveFullSignals | software/signal-analysis/signal_analysis/importer/csv_importer.py:68-73 | with full-width data rows every signal has one value per data row |
| CsvImporter.RowErrorSticks | software/signal-analysis/signal_analysis/importer/csv_importer.py:69-73 | once a cell fails, the rest of the row does not change the outcome |
| CsvImporter.RowsErrorSticks | software/signal-analysis/signal_analysis/importer/csv_importer.py:68-73 | once a row fails, the later rows do not change the outcome |
| CsvImporter.AppendCell | software/signal-analysis/signal_analysis/importer/csv_importer.py:72-73 | the loop body gives AddCell |
| CsvImporter.CollectColumns | software/signal-analysis/signal_analysis/importer/csv_importer.py:66-73 | the row loop gives AddRows of the empty columns over all data rows |
| CsvImporter.ImportCsvData | software/signal-analysis/signal_analysis/importer/csv_importer.py:33-90 | `import_csv_data` gives ImportCsv of its inputs |
| EventIntervalAnalysis.Min | software/signal-analysis/signal_analysis/analysis/event_interval_analysis.py:263-271 | `min(data)` is one of the samples and no sample is below it |
| EventIntervalAnalysis.Max | software/signal-analysis/signal_analysis/analysis/event_interval_analysis.py:264-272 | `max(data)` is one of the samples and no sample is above it |
| EventIntervalAnalysis.TriggerOrder | software/signal-analysis/signal_analysis/analysis/event_interval_analysis.py:260-274 | min <= trigger_low = min + 0.3 range <= trigger_high = min + 0.7 range <= max, strictly between low and high when the range is not 0 |
| EventIntervalAnalysis.TriggerLow | software/signal-analysis/signal_analysis/analysis/event_interval_analysis.py:268-274 | the low Schmitt threshold lies between the minimum and the maximum of the data |
| EventIntervalAnalysis.TriggerHigh | software/signal-analysis/signal_analysis/analysis/event_interval_analysis.py:260-266 | the high Schmitt threshold lies between the low threshold and the maximum of the data |
| EventIntervalAnalysis.Incidents | software/signal-analysis/signal_analysis/analysis/event_interval_analysis.py:276-318 | the incident array has the data's length |
| EventIntervalAnalysis.GenerateArrayOfIncidents | software/signal-analysis/signal_analysis/analysis/event_interval_analysis.py:276-318 | the scan loop and the closing edge give Incidents with the Schmitt thresholds; no samples raise ValueError from `min` |
| EventIntervalAnalysis.IncidentFacts | software/signal-analysis/signal_analysis/analysis/event_interval_analysis.py:299-316 | every entry is -1, 0 or 1; the last entry is 1 if the final state is low and -1 if high; a +1 appears only from state 0 going to 1, and a -1 only from state 1 going to 0 |
| EventIntervalAnalysis.FirstSampleQuiet | software/signal-analysis/signal_analysis/analysis/event_interval_analysis.py:291-308 | the first sample never raises an incident of its own, because the scan starts in the state that sample gives |
| EventIntervalAnalysis.EdgesBefore | software/signal-analysis/signal_analysis/analysis/event_interval_analysis.py:368-379 | the listed positions are below n and hold a nonzero incident |
| EventIntervalAnalysis.EdgesOrdered | software/signal-analysis/signal_analysis/analysis/event_interval_analysis.py:368-379 | the incident positions are listed in increasing order, and every one of them is listed |
| EventIntervalAnalysis.IntervalsBefore | software/signal-analysis/signal_analysis/analysis/event_interval_analysis.py:365-379 | one interval per incident among the first n entries |
| EventIntervalAnalysis.Intervals | software/signal-analysis/signal_analysis/analysis/event_interval_analysis.py:356-381 | there is one interval per nonzero incident |
| EventIntervalAnalysis.IntervalsStep | software/signal-analysis/signal_analysis/analysis/event_interval_analysis.py:368-379 | the loop's step: at an incident one interval is appended, measured from the last incident, and that incident becomes the last one; elsewhere nothing changes |
| EventIntervalAnalysis.SignedInterval | software/signal-analysis/signal_analysis/analysis/event_interval_analysis.py:369-378 | a rising edge gives the positive time gap and a falling edge the negative one |
| EventIntervalAnalysis.IntervalArray | software/signal-analysis/signal_analysis/analysis/event_interval_analysis.py:365-381 | the loop over the incidents gives Intervals |
| EventIntervalAnalysis.GenerateIntervalArray | software/signal-analysis/signal_analysis/analysis/event_interval_analysis.py:356-381 | `__generate_interval_array` gives Intervals of the incidents of the data; no samples, or the zero step that `range` refuses, raise ValueError |
| EventIntervalAnalysis.AbsInterval | software/signal-analysis/signal_analysis/analysis/event_interval_analysis.py:369-378 | an interval is as long as its gap in samples times the resolution, and with a positive resolution and a positive gap it is positive exactly after a rising edge |
| EventIntervalAnalysis.SumAbsSnoc | software/signal-analysis/signal_analysis/analysis/event_interval_analysis.py:386-387 | the sum of magnitudes grows by the magnitude of an appended interval |
| EventIntervalAnalysis.SumAbsPrefix | software/signal-analysis/signal_analysis/analysis/event_interval_analysis.py:365-379 | the magnitudes of the intervals so far add up to the last incident's index times the resolution |
| EventIntervalAnalysis.SumOfIntervals | software/signal-analysis/signal_analysis/analysis/event_interval_analysis.py:365-381 | the sum of the interval magnitudes is the resolution times the index of the last incident |
| EventIntervalAnalysis.SignalIntervalsCover | software/signal-analysis/signal_analysis/analysis/event_interval_analysis.py:365-381 | for a signal the last sample is always an incident, so the intervals cover the whole recording: their magnitudes add up to (n - 1) times the resolution |
| EventIntervalAnalysis.PreviousBefore | software/signal-analysis/signal_analysis/analysis/event_interval_analysis.py:366-373 | the previous incident never lies after the current one |
| EventIntervalAnalysis.IntervalAt | software/signal-analysis/signal_analysis/analysis/event_interval_analysis.py:368-379 | interval k is measured from the incident before the k-th (or the start) to the k-th |
| EventIntervalAnalysis.IntervalSigns | software/signal-analysis/signal_analysis/analysis/event_interval_analysis.py:368-379 | interval k's magnitude is its gap times the resolution, and its sign follows its edge whenever the gap is not empty |
| EventIntervalAnalysis.DoubleIntervals | software/signal-analysis/signal_analysis/analysis/event_interval_analysis.py:383-402 | there is one entry per step of `range(2, len, 2)` |
| EventIntervalAnalysis.GenerateDoubleIntervalArray | software/signal-analysis/signal_analysis/analysis/event_interval_analysis.py:383-402 | the loop gives DoubleIntervals: entry k is the magnitude of interval 2k+2 plus that of interval 2k+1 |
| EventIntervalAnalysis.SignalTypeTable | software/signal-analysis/signal_analysis/analysis/event_interval_analysis.py:144-164 | each signal type is characterised on its own: GROUND and CONST_VOLTAGE at a low deviation by comparison with the mean, SPORADIC, PERIODIC and BURST at a high deviation by the recurrence and event counts, and UNKNOWN otherwise |
| EventIntervalAnalysis.SignalTypeOf | software/signal-analysis/signal_analysis/analysis/event_interval_analysis.py:144-164 | a standard deviation of at most 50 gives ground, constant voltage or unknown, a larger one never those two, and periodic or burst needs at least 10 events; SignalTypeTable states each case |
| DeltaAnalysis.AbsAll | software/signal-analysis/signal_analysis/analysis/delta_analysis.py:159 | `absolute(interval_list)` keeps the length and holds the absolute value of each interval, never negative |
| DeltaAnalysis.SumNonNegative | software/signal-analysis/signal_analysis/analysis/delta_analysis.py:121-125 | a sum of non-negative intervals is non-negative |
| DeltaAnalysis.EventLimit | software/signal-analysis/signal_analysis/analysis/delta_analysis.py:163-167 | the event amount limit is 60, or the list's length when it is shorter: never above either |
| DeltaAnalysis.Durations | software/signal-analysis/signal_analysis/analysis/delta_analysis.py:176-189 | the window list of an event amount that fits in the list is never empty, so `min` and `max` do not raise |
| DeltaAnalysis.SeqMinIsLeast | software/signal-analysis/signal_analysis/analysis/delta_analysis.py:191-192 | `min(list_of_durations)` is one of the durations and at most each of them |
| DeltaAnalysis.SeqMaxIsGreatest | software/signal-analysis/signal_analysis/analysis/delta_analysis.py:193-194 | `max(list_of_durations)` is one of the durations and at least each of them |
| DeltaAnalysis.LevelsFrom | software/signal-analysis/signal_analysis/analysis/delta_analysis.py:174-195 | one minimum and one maximum per event amount: the two lists have equal length |
| DeltaAnalysis.DeltaLists | software/signal-analysis/signal_analysis/analysis/delta_analysis.py:146-195 | the minimum and maximum lists of the delta analysis have equal length |
| DeltaAnalysis.LevelsEntry | software/signal-analysis/signal_analysis/analysis/delta_analysis.py:170-195 | entry j belongs to event amount start + j * step, below the limit, and is the shortest and the longest of that amount's windows |
| DeltaAnalysis.MinAtMostMax | software/signal-analysis/signal_analysis/analysis/delta_analysis.py:191-194 | every entry of the minimum list is at most the matching entry of the maximum list |
| DeltaAnalysis.DurationsNonNegative | software/signal-analysis/signal_analysis/analysis/delta_analysis.py:159-189 | on absolute intervals every window duration is non-negative |
| DeltaAnalysis.MinsNonNegative | software/signal-analysis/signal_analysis/analysis/delta_analysis.py:159-192 | every shortest time of the delta lists is non-negative |
| DeltaAnalysis.DurationsAt | software/signal-analysis/signal_analysis/analysis/delta_analysis.py:184-189 | window m starts at index + m * step, fits in the list and is the sum of the event_amount intervals from there |
| DeltaAnalysis.DurationsCover | software/signal-analysis/signal_analysis/analysis/delta_analysis.py:176-184 | every start on the step grid whose window fits in the list has a window in the list (`max_allowed_index` is not off by one) |
| DeltaAnalysis.SumPrefixAtMost | software/signal-analysis/signal_analysis/analysis/delta_analysis.py:121-125 | with non-negative intervals a prefix never sums to more than the whole |
| DeltaAnalysis.WindowGrows | software/signal-analysis/signal_analysis/analysis/delta_analysis.py:121-125 | from the same start, a window of more events takes at least as long |
| DeltaAnalysis.ShortestGrows | software/signal-analysis/signal_analysis/analysis/delta_analysis.py:174-192 | the shortest window of k + step events is at least the shortest window of k events |
| DeltaAnalysis.MinsAscending | software/signal-analysis/signal_analysis/analysis/delta_analysis.py:146-195 | the minimum list never decreases from one event amount to the next |
| DeltaAnalysis.MinIntervalsNonNegative | software/signal-analysis/signal_analysis/analysis/delta_analysis.py:136-144 | so every step between consecutive shortest times, the min intervals the analysis keeps, is non-negative |
| DeltaAnalysis.WindowDurations | software/signal-analysis/signal_analysis/analysis/delta_analysis.py:175-189 | the inner window loop yields exactly the window durations of the event amount |
| DeltaAnalysis.CollectLevels | software/signal-analysis/signal_analysis/analysis/delta_analysis.py:174-195 | the loop over event amounts yields exactly the minimum and maximum lists |
| DeltaAnalysis.GenerateDeltaLists | software/signal-analysis/signal_analysis/analysis/delta_analysis.py:146-195 | `__generate_delta_lists` returns the delta lists of the absolute intervals |
| DeltaAnalysis.Steps | software/signal-analysis/signal_analysis/analysis/delta_analysis.py:136-144 | one step fewer than entries (none for an empty list), step i being entry i + 1 minus entry i |
| DeltaAnalysis.StepsTelescope | software/signal-analysis/signal_analysis/analysis/delta_analysis.py:136-144 | the steps add up to the last entry minus the first |
| DeltaAnalysis.GetDurationsFromIntervalList | software/signal-analysis/signal_analysis/analysis/delta_analysis.py:136-144 | the loop yields exactly the steps between consecutive entries |
| DeltaAnalysis.Analysis.constructor | software/signal-analysis/signal_analysis/analysis/delta_analysis.py:38-52 | the new analysis keeps the steps between the shortest times of the delta lists |
| DeltaAnalysis.Repeat | software/signal-analysis/signal_analysis/analysis/delta_analysis.py:109-116 | `[level] * n` has n copies of level, none for a negative n |
| DeltaAnalysis.DeltaLevelArray | software/signal-analysis/signal_analysis/analysis/delta_analysis.py:97-119 | the level array fails (an arithmetic error) exactly when there is an item and the time resolution is 0 |
| DeltaAnalysis.LevelArrayLevels | software/signal-analysis/signal_analysis/analysis/delta_analysis.py:103-118 | every entry of the level array is the level start + i * step of one of the items |
| DeltaAnalysis.AppendBlock | software/signal-analysis/signal_analysis/analysis/delta_analysis.py:117 | extending a sorted array by a block of a level no lower than its entries keeps it sorted and bounded by that level |
| DeltaAnalysis.LevelArraySorted | software/signal-analysis/signal_analysis/analysis/delta_analysis.py:97-119 | with a non-negative increase the level array never decreases and stays at or below the last item's level |
| DeltaAnalysis.LevelArray | software/signal-analysis/signal_analysis/analysis/delta_analysis.py:103-118 | the blocks of the first n items; their levels and order are stated by LevelArrayLevels and LevelArraySorted |
| DeltaAnalysis.GenerateDeltaLevelArray | software/signal-analysis/signal_analysis/analysis/delta_analysis.py:97-119 | the block loop yields the level array, or the arithmetic error |
| SignalGroups.RoleOf | software/signal-analysis/signal_analysis/model/signal_group.py:42-68 | the element at a role's position when the group is long enough, else None |
| SignalGroups.RoleIndex | software/signal-analysis/signal_analysis/model/signal_group.py:128-131 | a role is exported as its signal's index exactly when it holds a signal; None and `[]` are falsy and give None |
| SignalGroups.SignalGroup.constructor | software/signal-analysis/signal_analysis/model/signal_group.py:35-40 | a new group holds the given lines, with no protocol name, no ratings, empty encoding parameters and correlation rating -1 |
| SignalGroups.SignalGroup.ClockSignal | software/signal-analysis/signal_analysis/model/signal_group.py:42-47 | element 0 when it exists, else None |
| SignalGroups.SignalGroup.Data1Signal | software/signal-analysis/signal_analysis/model/signal_group.py:49-54 | element 1 when it exists, else None |
| SignalGroups.SignalGroup.Data2Signal | software/signal-analysis/signal_analysis/model/signal_group.py:56-61 | element 2 when it exists, else None |
| SignalGroups.SignalGroup.ControlSignal | software/signal-analysis/signal_analysis/model/signal_group.py:63-68 | element 3 when it exists, else None |
| SignalGroups.SignalGroup.ToJson | software/signal-analysis/signal_analysis/model/signal_group.py:124-136 | the dictionary copies the protocol name, ratings, encoding parameters and correlation rating, and maps each role to its signal's index when it holds a signal and to None otherwise |
| SignalGroups.DividesSelf | software/signal-analysis/signal_analysis/model/signal_group.py:147 | every number divides itself and 0 |
| SignalGroups.DividesSum | software/signal-analysis/signal_analysis/model/signal_group.py:147 | a common divisor divides a sum and a difference |
| SignalGroups.DividesTransitive | software/signal-analysis/signal_analysis/model/signal_group.py:147 | divisibility is transitive |
| SignalGroups.GcdDivides | software/signal-analysis/signal_analysis/model/signal_group.py:147 | `math.gcd` divides both arguments |
| SignalGroups.GcdGreatest | software/signal-analysis/signal_analysis/model/signal_group.py:147 | every common divisor divides `math.gcd` |
| SignalGroups.Resolutions | software/signal-analysis/signal_analysis/model/signal_group.py:140-144 | collecting the resolutions fails with AttributeError exactly when a line is None, or (as written) when any line is present, since `get_time_resolution` does not exist; there is at most one resolution per line |
| SignalGroups.GcdFoldDivides | software/signal-analysis/signal_analysis/model/signal_group.py:145-147 | after at least one step the fold divides every resolution it has seen |
| SignalGroups.GcdFold | software/signal-analysis/signal_analysis/model/signal_group.py:145-147 | after at least one step of the fold its value is never negative |
| SignalGroups.GcdFoldGreatest | software/signal-analysis/signal_analysis/model/signal_group.py:145-147 | every common divisor of the resolutions divides the fold |
| SignalGroups.OptimumResolutionAsWrittenFails | software/signal-analysis/signal_analysis/model/signal_group.py:139-149 | as written every group fails: a None or a present line raises AttributeError, and a group of only `[]` has no resolution to index |
| SignalGroups.OptimumResolution | software/signal-analysis/signal_analysis/model/signal_group.py:139-149 | fails exactly when reading a resolution fails or there are no resolutions, the latter as an IndexError |
| SignalGroups.EmptyLinesOnly | software/signal-analysis/signal_analysis/model/signal_group.py:140-144 | as written, collecting succeeds only with no resolution at all |
| SignalGroups.OptimumResolutionDivides | software/signal-analysis/signal_analysis/model/signal_group.py:139-149 | as intended, the result divides the resolution of every present line |
| SignalGroups.OptimumResolutionGreatest | software/signal-analysis/signal_analysis/model/signal_group.py:139-149 | as intended, every common divisor of the present lines' resolutions divides the result, so it is their gcd |
| SignalGroups.GetNewOptimumResolution | software/signal-analysis/signal_analysis/model/signal_group.py:139-149 | the two loops, reading each resolution as intended, give OptimumResolution |
| SignalGroups.CollectResolutions | software/signal-analysis/signal_analysis/model/signal_group.py:140-144 | the first loop gives the resolutions of the lines that are not `[]`, or the error of a None line |
| SignalGroupAggregator.MaxDuration | software/signal-analysis/signal_analysis/analysis/signal_group_aggregator.py:219-226 | the largest measurement duration, starting from 0: no line is longer, and it is 0 or the duration of some line |
| SignalGroupAggregator.GetMaxDuration | software/signal-analysis/signal_analysis/analysis/signal_group_aggregator.py:219-226 | the loop yields exactly that maximum |
| SignalGroupAggregator.IndexOfDuration | software/signal-analysis/signal_analysis/analysis/signal_group_aggregator.py:228-234 | the first position holding a line of the duration, none exactly when no line has it |
| SignalGroupAggregator.GetSignalOfDuration | software/signal-analysis/signal_analysis/analysis/signal_group_aggregator.py:228-234 | the loop returns the first line of the duration, or `None` when there is none |
| SignalGroupAggregator.RemoveFirst | software/signal-analysis/signal_analysis/analysis/signal_group_aggregator.py:56 | `list.remove(x)` takes out one copy of x and nothing else |
| SignalGroupAggregator.Reverse | software/signal-analysis/signal_analysis/analysis/signal_group_aggregator.py:254 | `reverse()` puts entry k at position len - 1 - k |
| SignalGroupAggregator.ReverseDescending | software/signal-analysis/signal_analysis/analysis/signal_group_aggregator.py:254 | reversing a list in descending order of duration gives a permutation in ascending order |
| SignalGroupAggregator.ReverseMultiset | software/signal-analysis/signal_analysis/analysis/signal_group_aggregator.py:254 | reversing keeps every line |
| SignalGroupAggregator.MaxAttained | software/signal-analysis/signal_analysis/analysis/signal_group_aggregator.py:236-241 | with non-negative durations the longest line is found, never `None` |
| SignalGroupAggregator.Longest | software/signal-analysis/signal_analysis/analysis/signal_group_aggregator.py:236-241 | the line found is in the list and has the largest duration |
| SignalGroupAggregator.RemoveFirstFrom | software/signal-analysis/signal_analysis/analysis/signal_group_aggregator.py:252 | removing a line leaves only lines of the list |
| SignalGroupAggregator.RemoveFirstNonNegative | software/signal-analysis/signal_analysis/analysis/signal_group_aggregator.py:252 | removing a line keeps every duration non-negative |
| SignalGroupAggregator.PickOrder | software/signal-analysis/signal_analysis/analysis/signal_group_aggregator.py:247-253 | one pick per line |
| SignalGroupAggregator.PickOrderPermutation | software/signal-analysis/signal_analysis/analysis/signal_group_aggregator.py:247-253 | the picked lines are a permutation of the input |
| SignalGroupAggregator.PrependDescending | software/signal-analysis/signal_analysis/analysis/signal_group_aggregator.py:248-253 | a line at least as long as every line picked later keeps the picks in descending order |
| SignalGroupAggregator.PermutationBounded | software/signal-analysis/signal_analysis/analysis/signal_group_aggregator.py:238-240 | a permutation keeps every duration within the list's bound |
| SignalGroupAggregator.PickOrderDescending | software/signal-analysis/signal_analysis/analysis/signal_group_aggregator.py:247-253 | the lines are picked in descending order of duration |
| SignalGroupAggregator.SortByDurationSorted | software/signal-analysis/signal_analysis/analysis/signal_group_aggregator.py:243-256 | `__sort_signals` returns a permutation of its input in ascending order of duration |
| SignalGroupAggregator.SortByDuration | software/signal-analysis/signal_analysis/analysis/signal_group_aggregator.py:243-256 | `__sort_signals` returns a permutation of its input |
| SignalGroupAggregator.PickStep | software/signal-analysis/signal_analysis/analysis/signal_group_aggregator.py:248-253 | one pass of the sort loop moves the longest remaining line to the picked ones, following the pick order |
| SignalGroupAggregator.SortSignals | software/signal-analysis/signal_analysis/analysis/signal_group_aggregator.py:243-256 | the sort loop yields exactly the sorted list: a permutation in ascending order of duration |
| SignalGroupAggregator.AppendChecked | software/signal-analysis/signal_analysis/analysis/signal_group_aggregator.py:169-173 | taking a line that passed its check keeps every taken line checked |
| SignalGroupAggregator.SweepAsWrittenKeepsLines | software/signal-analysis/signal_analysis/analysis/signal_group_aggregator.py:166-173 | as written, a pass that removes lines while iterating loses none, takes only lines that passed, and fails only on a line whose check fails |
| SignalGroupAggregator.SweepAsWritten | software/signal-analysis/signal_analysis/analysis/signal_group_aggregator.py:166-173 | the sweep that removes from the list it iterates over records one rating per line it takes; what it keeps and skips is stated by SweepAsWrittenKeepsLines and AsWrittenSkipsSecondPeriodic |
| SignalGroupAggregator.SweepIntended | software/signal-analysis/signal_analysis/analysis/signal_group_aggregator.py:166-173 | the sweep over a copy visits every remaining line once, so the lines kept and taken grow by exactly the lines visited, with one rating per line taken; SweepIntendedSplits and SweepIntendedTakesAll state which |
| SignalGroupAggregator.VisitKeeps | software/signal-analysis/signal_analysis/analysis/signal_group_aggregator.py:166-173 | visiting one line keeps taken lines checked and left lines refused |
| SignalGroupAggregator.SweepIntendedSplits | software/signal-analysis/signal_analysis/analysis/signal_group_aggregator.py:166-173 | iterating over a copy, a pass splits the lines into those that passed, taken, and those that did not, left |
| SignalGroupAggregator.SweepIntendedFails | software/signal-analysis/signal_analysis/analysis/signal_group_aggregator.py:166-168 | iterating over a copy, a pass fails exactly when some line's check fails, with that error |
| SignalGroupAggregator.SweepKeepsLines | software/signal-analysis/signal_analysis/analysis/signal_group_aggregator.py:166-173 | under either reading a pass loses no line, takes only lines that passed, and fails only with the error of some line's check |
| SignalGroupAggregator.SweepIntendedTakesAll | software/signal-analysis/signal_analysis/analysis/signal_group_aggregator.py:166-173 | iterating over a copy, every line that passes is taken, none left passes, and the pass fails exactly when some check fails |
| SignalGroupAggregator.AsWrittenSkipsSecondPeriodic | software/signal-analysis/signal_analysis/analysis/signal_group_aggregator.py:62-66 | as written, of two adjacent periodic lines only the first is taken out; iterating over a copy takes both |
| SignalGroupAggregator.RunSweep | software/signal-analysis/signal_analysis/analysis/signal_group_aggregator.py:166-173 | the loop of a pass, indexing the shrinking list as written or a copy as intended, yields exactly the pass |
| SignalGroupAggregator.PeriodicSweep | software/signal-analysis/signal_analysis/analysis/signal_group_aggregator.py:60-66 | taking out the periodic lines never fails, loses no line and takes only periodic lines |
| SignalGroupAggregator.RetrievePeriodicSplits | software/signal-analysis/signal_analysis/analysis/signal_group_aggregator.py:59-71 | the periodic lines and the lines left together are the measured lines, the periodic ones in ascending order of duration; iterating over a copy, no periodic line is left behind |
| SignalGroupAggregator.RetrievePeriodicSignals | software/signal-analysis/signal_analysis/analysis/signal_group_aggregator.py:59-71 | the retrieval with the sort yields exactly those two lists |
| SignalGroupAggregator.RuntimeCorrelation | software/signal-analysis/signal_analysis/analysis/signal_group_aggregator.py:73-115 | different activity counts give (False, 0); no activities on both lines give (True, 1) |
| SignalGroupAggregator.DurationRatio | software/signal-analysis/signal_analysis/analysis/signal_group_aggregator.py:105-107 | the ratio of the periodic to the measured activity length raises ZeroDivisionError exactly when both lengths are the int 0 of empty sums (event_interval_analysis.py lines 215 and 228-229 add numpy float64 magnitudes, 191); it is inf or nan exactly when the measured length is zero, and otherwise times the measured length gives the periodic one |
| SignalGroupAggregator.RuntimeFromVerdict | software/signal-analysis/signal_analysis/analysis/signal_group_aggregator.py:84-113 | from activity i on, the loop fails (ZeroDivisionError) exactly at a pair of activities whose lengths are both the int 0 of empty sums; otherwise it holds exactly when it held so far and every later pair lies within one period, and the rating stays finite exactly when it was and no later measured activity has length zero |
| SignalGroupAggregator.RuntimeFrom | software/signal-analysis/signal_analysis/analysis/signal_group_aggregator.py:84-113 | the runtime-correlation scan from a given index fails only with ZeroDivisionError and never turns a rejected correlation into an accepted one; RuntimeFromVerdict states when it fails and what it decides |
| SignalGroupAggregator.RuntimeCorrelationMeaning | software/signal-analysis/signal_analysis/analysis/signal_group_aggregator.py:73-115 | with a period and as many activities, the runtimes correlate exactly when every measured activity lies within one period around its periodic activity; the check fails only for a pair of empty-sum activities, and a zero-length measured activity makes the rating inf or nan while the verdict goes on; without a period only two empty lists correlate |
| SignalGroupAggregator.ZeroLengthActivityRated | software/signal-analysis/signal_analysis/analysis/signal_group_aggregator.py:84-154 | a measured activity (220, 220) against periodic activities (0, 50), (200, 250) with period 100 gives (True, inf), and the check goes on to the cycle times |
| SignalGroupAggregator.EmptySumsRaise | software/signal-analysis/signal_analysis/analysis/signal_group_aggregator.py:105-107 | two activities whose ends are all empty sums make the runtime check raise ZeroDivisionError |
| SignalGroupAggregator.RuntimeFromStep | software/signal-analysis/signal_analysis/analysis/signal_group_aggregator.py:84-109 | one loop pass: the verdict and the product of duration ratios are updated by the i-th activity pair |
| SignalGroupAggregator.IsRuntimeCorrelated | software/signal-analysis/signal_analysis/analysis/signal_group_aggregator.py:73-115 | the loop yields exactly the runtime correlation |
| SignalGroupAggregator.CycletimeCorrelation | software/signal-analysis/signal_analysis/analysis/signal_group_aggregator.py:117-136 | without a measured symbol duration the bare `False` fails unpacking as written and is (False, 0) as intended; otherwise it fails on a missing period, else correlates iff the symbol lies strictly within the period plus or minus the reoccurring duration, rated symbol / period |
| SignalGroupAggregator.CorrelationCheck | software/signal-analysis/signal_analysis/analysis/signal_group_aggregator.py:138-154 | the check succeeds iff both correlations do, holds iff both hold, and fails with the runtime error first; its rating is the product of both ratings, inf or nan exactly when the runtime rating is |
| SignalGroupAggregator.MissingSymbolStopsCheck | software/signal-analysis/signal_analysis/analysis/signal_group_aggregator.py:123-148 | as written a measured line without symbol duration makes the check fail, with TypeError once the runtime part succeeds; intended, it is simply not correlated, rated 0 when the runtime rating is finite |
| SignalGroupAggregator.Presents | software/signal-analysis/signal_analysis/analysis/signal_group_aggregator.py:163-172 | the group entries are the lines, in order |
| SignalGroupAggregator.LastRating | software/signal-analysis/signal_analysis/analysis/signal_group_aggregator.py:175-180 | the group's rating is the last correlation rating, `None` when there is none |
| SignalGroupAggregator.StandaloneGroups | software/signal-analysis/signal_analysis/analysis/signal_group_aggregator.py:202-217 | one standalone group per line left, in order |
| SignalGroupAggregator.LinesOfPresents | software/signal-analysis/signal_analysis/analysis/signal_group_aggregator.py:163-172 | the group entries hold exactly the lines |
| SignalGroupAggregator.GroupedLinesAppend | software/signal-analysis/signal_analysis/analysis/signal_group_aggregator.py:183 | appending a group adds exactly its lines |
| SignalGroupAggregator.StandaloneGroupHolds | software/signal-analysis/signal_analysis/analysis/signal_group_aggregator.py:205-210 | a standalone group holds exactly its one line |
| SignalGroupAggregator.StandaloneGroup | software/signal-analysis/signal_analysis/analysis/signal_group_aggregator.py:205-210 | the group of one line; its contents are stated by StandaloneGroupHolds |
| SignalGroupAggregator.StandaloneGroupsHoldLines | software/signal-analysis/signal_analysis/analysis/signal_group_aggregator.py:202-217 | appending the standalone groups adds exactly the lines left |
| SignalGroupAggregator.ClockGroupOfPass | software/signal-analysis/signal_analysis/analysis/signal_group_aggregator.py:162-180 | the group of a periodic line holds exactly that line and the lines its pass took, rated by the last of them |
| SignalGroupAggregator.CorrelatedGroupShape | software/signal-analysis/signal_analysis/analysis/signal_group_aggregator.py:162-183 | the group of a periodic line is its clock group, and the lines it leaves are the others |
| SignalGroupAggregator.GroupingMakesClockGroups | software/signal-analysis/signal_analysis/analysis/signal_group_aggregator.py:156-189 | the grouping step makes clock groups by the correlation test and neither loses nor creates lines |
| SignalGroupAggregator.PeriodicGroupsKeepLines | software/signal-analysis/signal_analysis/analysis/signal_group_aggregator.py:156-189 | grouping loses no line: the grouped lines and the lines left are the lines before plus the periodic lines |
| SignalGroupAggregator.PeriodicGroupsLength | software/signal-analysis/signal_analysis/analysis/signal_group_aggregator.py:162-183 | grouping keeps the groups made so far and adds one group per periodic line |
| SignalGroupAggregator.PeriodicGroupsAt | software/signal-analysis/signal_analysis/analysis/signal_group_aggregator.py:162-183 | the group made for the k-th periodic line is its clock group, at its position |
| SignalGroupAggregator.PeriodicGroupsClocks | software/signal-analysis/signal_analysis/analysis/signal_group_aggregator.py:156-189 | grouping all periodic lines makes one clock group per periodic line, in order |
| SignalGroupAggregator.AggregateKeepsLines | software/signal-analysis/signal_analysis/analysis/signal_group_aggregator.py:30-51 | aggregation neither loses nor creates lines: every measured line is in exactly one group |
| SignalGroupAggregator.Aggregate | software/signal-analysis/signal_analysis/analysis/signal_group_aggregator.py:30-51 | `aggregate` as a value; stated by AggregateKeepsLines and AggregateShape |
| SignalGroupAggregator.GroupsThenStandalone | software/signal-analysis/signal_analysis/analysis/signal_group_aggregator.py:41-48 | the periodic groups come first, then only standalone groups |
| SignalGroupAggregator.AggregateShape | software/signal-analysis/signal_analysis/analysis/signal_group_aggregator.py:30-51 | one clock group per periodic line, in ascending order of duration, then one standalone group per line left |
| SignalGroupAggregator.GroupingStep | software/signal-analysis/signal_analysis/analysis/signal_group_aggregator.py:162-183 | one grouping step in terms of the pass of the periodic line over the lines left |
| SignalGroupAggregator.AggregateSteps | software/signal-analysis/signal_analysis/analysis/signal_group_aggregator.py:191-200 | the aggregation is the retrieval of the periodic lines, their grouping, then the standalone groups |
| SignalGroupAggregator.AllMaterialiseSnoc | software/signal-analysis/signal_analysis/analysis/signal_group_aggregator.py:183-212 | appending a new group object keeps the objects matching the groups |
| SignalGroupAggregator.AllMaterialiseConcat | software/signal-analysis/signal_analysis/analysis/signal_group_aggregator.py:47-48 | two disjoint lists of group objects hold the concatenation of their groups |
| SignalGroupAggregator.NewClockGroup | software/signal-analysis/signal_analysis/analysis/signal_group_aggregator.py:174-180 | a new group object holding the periodic line, the lines it took and the last rating |
| SignalGroupAggregator.GroupPeriodicRelatedSignals | software/signal-analysis/signal_analysis/analysis/signal_group_aggregator.py:156-189 | the loop makes one new group object per periodic line holding its clock group, and returns the lines none took, or the correlation's error |
| SignalGroupAggregator.GenerateStandaloneLineGroups | software/signal-analysis/signal_analysis/analysis/signal_group_aggregator.py:202-217 | one new standalone group object per line, in order |
| SignalGroupAggregator.AggregateSignals | software/signal-analysis/signal_analysis/analysis/signal_group_aggregator.py:30-51 | new group objects holding exactly the aggregation, or the error the correlation met |
| ProtocolIdentifier.KnownProtocolNamesMatch | software/signal-analysis/signal_analysis/analysis/protocol_identifier.py:45-46 | the list of names has one name per known protocol, in the same order |
| ProtocolIdentifier.ClampRating | software/signal-analysis/signal_analysis/analysis/protocol_identifier.py:96-99 | a clamped rating lies in [0, 1]: raw ratings in [0, 10] are divided by 10, lower ones give 0, higher ones 1 |
| ProtocolIdentifier.ClampRatingMonotone | software/signal-analysis/signal_analysis/analysis/protocol_identifier.py:97-99 | clamping keeps the order of raw ratings |
| ProtocolIdentifier.RatingsUpTo | software/signal-analysis/signal_analysis/analysis/protocol_identifier.py:94-100 | the ratings list holds the clamped rating of each protocol in order; it fails exactly when one of the protocols raises |
| ProtocolIdentifier.RatingsErrorSticks | software/signal-analysis/signal_analysis/analysis/protocol_identifier.py:95-96 | once a protocol has raised, rating further protocols gives the same error |
| ProtocolIdentifier.RateSignalGroup | software/signal-analysis/signal_analysis/analysis/protocol_identifier.py:87-101 | the loop of `__rate_signal_group` yields exactly the ratings |
| ProtocolIdentifier.FirstMaxIndex | software/signal-analysis/signal_analysis/analysis/protocol_identifier.py:54 | `index(max(...))` is the first position of a largest rating: nothing is greater, nothing before it is as great |
| ProtocolIdentifier.Zip | software/signal-analysis/signal_analysis/analysis/protocol_identifier.py:67 | the rating dictionary pairs the i-th name with the i-th rating |
| ProtocolIdentifier.HasClockOrData | software/signal-analysis/signal_analysis/analysis/protocol_identifier.py:73-85 | true only when some present line is periodic or burst; false only when no line is empty and no present line is periodic or burst; an empty line that is reached raises AttributeError |
| ProtocolIdentifier.ContainsClockOrData | software/signal-analysis/signal_analysis/analysis/protocol_identifier.py:78-85 | the loop returning at the first deciding line yields exactly that answer |
| ProtocolIdentifier.Identify | software/signal-analysis/signal_analysis/analysis/protocol_identifier.py:48-69 | a group without a periodic or burst line is left unidentified; an identified group has a periodic or burst line and complete ratings |
| ProtocolIdentifier.IdentifiedIsBestRated | software/signal-analysis/signal_analysis/analysis/protocol_identifier.py:51-69 | an identified group is named after the first protocol with the highest rating, takes that protocol's parameters, and rates every known protocol by name, in order, in [0, 1] |
| ProtocolIdentifier.IdentifyGroup | software/signal-analysis/signal_analysis/analysis/protocol_identifier.py:48-69 | the field assignments on one group: lines and correlation rating unchanged; no error iff its identification succeeds; nothing assigned when unidentified; else the protocol's name, parameters and ratings |
| ProtocolIdentifier.IdentifyProtocols | software/signal-analysis/signal_analysis/analysis/protocol_identifier.py:30-71 | every group in turn, stopping at the first error: it succeeds iff every group can be identified, and then every group carries its identification or its old fields |
| SpiParameterIdentifier.DurationStop | software/signal-analysis/signal_analysis/protocols/spi_parameter_identifier.py:66 | the scan ends at `int(len / 1000)`: the largest count whose thousandfold fits in the list |
| SpiParameterIdentifier.DurationEntry | software/signal-analysis/signal_analysis/protocols/spi_parameter_identifier.py:64-69 | entry k of the overall durations is the sum of the first offset + k * stepwidth intervals, an index below the stop |
| SpiParameterIdentifier.PrefixSum | software/signal-analysis/signal_analysis/protocols/spi_parameter_identifier.py:67 | `sum(interval_array[:i])`; PrefixSumMonotone states that it never decreases over non-negative intervals |
| SpiParameterIdentifier.Durations | software/signal-analysis/signal_analysis/protocols/spi_parameter_identifier.py:64-69 | the durations from an offset by a step; DurationEntry states entry k, DurationsAscending their order |
| SpiParameterIdentifier.OverallDurations | software/signal-analysis/signal_analysis/protocols/spi_parameter_identifier.py:63-69 | the durations are empty exactly when the offset reaches `int(len(intervals) / 1000)`; otherwise the first is the sum of the first offset intervals |
| SpiParameterIdentifier.GetOverallDurations | software/signal-analysis/signal_analysis/protocols/spi_parameter_identifier.py:63-69 | the loop of `__get_overall_durations` yields exactly the prefix sums at offset, offset + stepwidth, ... below the stop |
| SpiParameterIdentifier.PrefixSumMonotone | software/signal-analysis/signal_analysis/protocols/spi_parameter_identifier.py:67 | over non-negative intervals a longer prefix never sums to less |
| SpiParameterIdentifier.DurationsAscending | software/signal-analysis/signal_analysis/protocols/spi_parameter_identifier.py:63-69 | the overall durations of non-negative intervals ascend and none is below the first one's prefix sum |
| SpiParameterIdentifier.Advance | software/signal-analysis/signal_analysis/protocols/spi_parameter_identifier.py:84-86 | the inner loop moves forward and stops at the last event or at the first event after the window's start |
| SpiParameterIdentifier.AdvanceSkips | software/signal-analysis/signal_analysis/protocols/spi_parameter_identifier.py:84-86 | every data event the inner loop skips lies at or before the window's start |
| SpiParameterIdentifier.Sweep | software/signal-analysis/signal_analysis/protocols/spi_parameter_identifier.py:78-88 | after n clock timestamps the counter is at most n and the data index is inside the data |
| SpiParameterIdentifier.SweepIndexMonotone | software/signal-analysis/signal_analysis/protocols/spi_parameter_identifier.py:79-86 | the data index never moves backwards |
| SpiParameterIdentifier.CoincidingEvents | software/signal-analysis/signal_analysis/protocols/spi_parameter_identifier.py:71-89 | no clock or no data events count 0; with both present a missing symbol duration raises TypeError, and otherwise the count is at most the number of clock timestamps |
| SpiParameterIdentifier.AmountCoincidingEvents | software/signal-analysis/signal_analysis/protocols/spi_parameter_identifier.py:71-89 | the two-pointer loop yields exactly the count of coinciding events, or the error |
| SpiParameterIdentifier.CountHits | software/signal-analysis/signal_analysis/protocols/spi_parameter_identifier.py:80-88 | the number of hits among the first n clock timestamps is at most n |
| SpiParameterIdentifier.SweepCountsHits | software/signal-analysis/signal_analysis/protocols/spi_parameter_identifier.py:71-89 | for ascending timestamps and a non-negative window the two-pointer loop counts exactly the clock timestamps near which some data event lies, and every skipped data event lies before the last window |
| SpiParameterIdentifier.HitAtAdvance | software/signal-analysis/signal_analysis/protocols/spi_parameter_identifier.py:84-88 | at the index the inner loop stops on, the window check holds exactly when the clock timestamp is a hit |
| SpiParameterIdentifier.Hit | software/signal-analysis/signal_analysis/protocols/spi_parameter_identifier.py:84-88 | a clock timestamp with a data event in its window; HitAtAdvance and SweepCountsHits state that the two-pointer loop counts exactly these |
| SpiParameterIdentifier.PhaseOf | software/signal-analysis/signal_analysis/protocols/spi_parameter_identifier.py:117-132 | a tie gives no phase; otherwise CPHA "0" iff more even coincidences, "1" iff more odd ones, with a fraction in (1/2, 1] |
| SpiParameterIdentifier.PhaseFractionIsShare | software/signal-analysis/signal_analysis/protocols/spi_parameter_identifier.py:117-128 | the fraction is the winner's share of all coincidences |
| SpiParameterIdentifier.ClockPhase | software/signal-analysis/signal_analysis/protocols/spi_parameter_identifier.py:91-132 | the phase fails only when the clock line has no symbol duration |
| SpiParameterIdentifier.LowVoltageNeverAsWritten | software/signal-analysis/signal_analysis/protocols/spi_parameter_identifier.py:134-139 | as written, with distinct lowest and highest levels the low-voltage test never holds |
| SpiParameterIdentifier.Polarity | software/signal-analysis/signal_analysis/protocols/spi_parameter_identifier.py:148-162 | CPOL is reported iff the clock rests near its lowest or its highest level, "0" exactly for the low one; no levels or no resting voltage raise |
| SpiParameterIdentifier.PolarityZeroNeverAsWritten | software/signal-analysis/signal_analysis/protocols/spi_parameter_identifier.py:134-160 | as written, CPOL "0" is never reported for a clock with distinct levels |
| SpiParameterIdentifier.PolarityZeroIntended | software/signal-analysis/signal_analysis/protocols/spi_parameter_identifier.py:134-158 | with the intended low-voltage test, a clock resting within 10 % of the swing around its lowest level is CPOL "0" |
| SpiParameterIdentifier.ParametersWith | software/signal-analysis/signal_analysis/protocols/spi_parameter_identifier.py:26-34 | fewer than two lines, or a missing first or second line, give no parameters; any result has only the polarity and phase keys |
| SpiParameterIdentifier.ParametersAsWritten | software/signal-analysis/signal_analysis/protocols/spi_parameter_identifier.py:26-34 | fewer than two lines or a missing one gives no parameters; a result holds only the polarity and phase keys |
| SpiParameterIdentifier.Parameters | software/signal-analysis/signal_analysis/protocols/spi_parameter_identifier.py:26-34 | the same, with the corrected polarity test and an undecided phase left out |
| SpiParameterIdentifier.UndecidedPhaseFailsAsWritten | software/signal-analysis/signal_analysis/protocols/spi_parameter_identifier.py:130-132 | as written an undecided phase makes `update(None)` raise TypeError; the intended version reports the polarity alone |
| SpiParameterIdentifier.DecidedPhaseReported | software/signal-analysis/signal_analysis/protocols/spi_parameter_identifier.py:117-128 | a decided phase is reported as "0" or "1" with a fraction in (1/2, 1], and the polarity entry is kept |
| UartParameterIdentifier.FirstNear | software/signal-analysis/signal_analysis/protocols/uart_parameter_identifier.py:102-103 | the loop stops at the first known baud rate within ten percent of the measurement; none before it is |
| UartParameterIdentifier.NearBaud | software/signal-analysis/signal_analysis/protocols/uart_parameter_identifier.py:103 | the open ten-percent window around a known rate; FirstNear and RoundBaudRate state that the first rate in it is taken |
| UartParameterIdentifier.RoundBaudRate | software/signal-analysis/signal_analysis/protocols/uart_parameter_identifier.py:98-106 | a rating is given iff some known baud rate lies within ten percent; then the first such rate is reported with the ratio of the measurement to it, otherwise the measurement itself without rating |
| UartParameterIdentifier.BaudRatingBounds | software/signal-analysis/signal_analysis/protocols/uart_parameter_identifier.py:103-105 | a baud rating lies strictly between 0.9 and 1.1 |
| UartParameterIdentifier.KnownBaudsSpread | software/signal-analysis/signal_analysis/protocols/uart_parameter_identifier.py:100-101 | each known baud rate is positive and at least ten percent above the previous one |
| UartParameterIdentifier.SpreadApart | software/signal-analysis/signal_analysis/protocols/uart_parameter_identifier.py:100-101 | in such a list any later rate is at least 1.1 times any earlier one |
| UartParameterIdentifier.NotNearBelow | software/signal-analysis/signal_analysis/protocols/uart_parameter_identifier.py:102-103 | a measurement at least 1.1 times a known rate is near none of the rates up to it |
| UartParameterIdentifier.KnownBaudsAreFixed | software/signal-analysis/signal_analysis/protocols/uart_parameter_identifier.py:98-106 | every known baud rate measured exactly is reported as itself with rating 1 |
| UartParameterIdentifier.FirstNearIs | software/signal-analysis/signal_analysis/protocols/uart_parameter_identifier.py:102-105 | the first rate within tolerance is the one the loop returns |
| UartParameterIdentifier.OverlappingWindows | software/signal-analysis/signal_analysis/protocols/uart_parameter_identifier.py:100-105 | the windows of 115200 and 128000 overlap: 120000 is near both and is reported as 115200 |
| UartParameterIdentifier.GetBaudRate | software/signal-analysis/signal_analysis/protocols/uart_parameter_identifier.py:108-113 | no symbol duration raises TypeError and a zero one ZeroDivisionError; otherwise the baud rate is `int(1e9 / duration)` rounded to a known rate |
| UartParameterIdentifier.LogicLevel | software/signal-analysis/signal_analysis/protocols/uart_parameter_identifier.py:280-284 | a positive interval is bit 0, every other one bit 1 |
| UartParameterIdentifier.Block | software/signal-analysis/signal_analysis/protocols/uart_parameter_identifier.py:190-194 | the block of one interval repeats its logic level once per symbol it lasts |
| UartParameterIdentifier.Invert | software/signal-analysis/signal_analysis/protocols/uart_parameter_identifier.py:196-199 | the inversion keeps the length of the bit stream |
| UartParameterIdentifier.DecodeUartToBinary | software/signal-analysis/signal_analysis/protocols/uart_parameter_identifier.py:184-200 | the decoding loop yields exactly the decoded stream, or the error of a missing or zero symbol duration |
| UartParameterIdentifier.DecodedLength | software/signal-analysis/signal_analysis/protocols/uart_parameter_identifier.py:189-195 | the decoded stream has one bit per symbol, and each bit is 0 or 1 |
| UartParameterIdentifier.InvertBits | software/signal-analysis/signal_analysis/protocols/uart_parameter_identifier.py:196-199 | inversion swaps 0 and 1, keeps a bit stream and undoes itself |
| UartParameterIdentifier.DecodeFacts | software/signal-analysis/signal_analysis/protocols/uart_parameter_identifier.py:184-200 | a successful decoding is a bit stream with one bit per symbol of the intervals |
| UartParameterIdentifier.Decode | software/signal-analysis/signal_analysis/protocols/uart_parameter_identifier.py:184-200 | an empty interval list decodes to no bits; decoding fails exactly when there are intervals and the symbol duration is missing or zero |
| UartParameterIdentifier.Limited | software/signal-analysis/signal_analysis/protocols/uart_parameter_identifier.py:229-233 | at most the first 500 bits: all of them when fewer, the prefix otherwise |
| UartParameterIdentifier.MatchesAtMeans | software/signal-analysis/signal_analysis/protocols/uart_parameter_identifier.py:212 | the slice comparison holds iff the window lies inside the bits and agrees with the pattern bit by bit |
| UartParameterIdentifier.CountMatches | software/signal-analysis/signal_analysis/protocols/uart_parameter_identifier.py:210-213 | no more matches than windows |
| UartParameterIdentifier.FirstGoodOffset | software/signal-analysis/signal_analysis/protocols/uart_parameter_identifier.py:207-219 | the first offset rated above 0.9, with every earlier offset rated at most 0.9; none found means every offset is rated at most 0.9 |
| UartParameterIdentifier.FrameOffsetFacts | software/signal-analysis/signal_analysis/protocols/uart_parameter_identifier.py:202-221 | no offset found gives rating 0; a found offset is moved past the pattern, lies below half the bits plus the pattern length and is rated above 0.9 |
| UartParameterIdentifier.FrameOffset | software/signal-analysis/signal_analysis/protocols/uart_parameter_identifier.py:202-221 | fewer than two bits give offset None with rating 0; with two or more, a zero block length is a ValueError; a negative one divides by zero unless the search limit is negative, when no window can match and the result is offset None with rating 0; a positive one divides by zero exactly when the search limit is not positive |
| UartParameterIdentifier.LongPatternNeverMatches | software/signal-analysis/signal_analysis/protocols/uart_parameter_identifier.py:212 | a pattern longer than the bits equals no slice of them, whatever the start |
| UartParameterIdentifier.NegativeLimitLongPattern | software/signal-analysis/signal_analysis/protocols/uart_parameter_identifier.py:208-209 | a negative search limit means the pattern is longer than the bits |
| UartParameterIdentifier.SearchLimit | software/signal-analysis/signal_analysis/protocols/uart_parameter_identifier.py:208-209 | `int(0.5 * (len(bits) - len(pattern) + 1))`; FrameOffset states its errors in terms of it and NegativeLimitLongPattern what a negative one means |
| UartParameterIdentifier.MatchesAt | software/signal-analysis/signal_analysis/protocols/uart_parameter_identifier.py:212 | the slice comparison of one window; MatchesAtMeans states that it holds iff the window lies inside the bits and equals the pattern element by element |
| UartParameterIdentifier.OffsetRating | software/signal-analysis/signal_analysis/protocols/uart_parameter_identifier.py:214-215 | the matching windows over the windows searched; FirstGoodOffset states which offset is the first rated above 0.9 |
| UartParameterIdentifier.CountStep | software/signal-analysis/signal_analysis/protocols/uart_parameter_identifier.py:211-213 | one inner pass adds one exactly when the window matches |
| UartParameterIdentifier.CountWindows | software/signal-analysis/signal_analysis/protocols/uart_parameter_identifier.py:210-213 | the inner loop counts exactly the matching windows |
| UartParameterIdentifier.IdentifyTransmissionFrameOffset | software/signal-analysis/signal_analysis/protocols/uart_parameter_identifier.py:202-221 | the search yields exactly the frame offset result, with the errors of a zero step and of an empty range |
| UartParameterIdentifier.SearchOffsets | software/signal-analysis/signal_analysis/protocols/uart_parameter_identifier.py:207-221 | the loop over offsets ends at the first one rated above 0.9, else reports none with rating 0 |
| UartParameterIdentifier.AmountStopBits | software/signal-analysis/signal_analysis/protocols/uart_parameter_identifier.py:115-154 | "Unknown" stop bits come with rating 0; one or two stop bits with a rating above 0.9 |
| UartParameterIdentifier.Frames | software/signal-analysis/signal_analysis/protocols/uart_parameter_identifier.py:286-302 | with a positive block length there is one frame per step of `range(0, len(rest) / 2, block)` |
| UartParameterIdentifier.GetArrayOfTransmissionFrames | software/signal-analysis/signal_analysis/protocols/uart_parameter_identifier.py:286-302 | the frame loop yields exactly those frames |
| UartParameterIdentifier.RemainingStep | software/signal-analysis/signal_analysis/protocols/uart_parameter_identifier.py:300 | each pass drops one block from the front of the remaining bits |
| UartParameterIdentifier.CountParity | software/signal-analysis/signal_analysis/protocols/uart_parameter_identifier.py:259-266 | no more parity matches than frames |
| UartParameterIdentifier.ParityCountsAddUp | software/signal-analysis/signal_analysis/protocols/uart_parameter_identifier.py:259-266 | every frame matches exactly one of even and odd parity |
| UartParameterIdentifier.CountParityMatches | software/signal-analysis/signal_analysis/protocols/uart_parameter_identifier.py:254-266 | the parity loops count exactly the frames matching the requested parity |
| UartParameterIdentifier.ParityShare | software/signal-analysis/signal_analysis/protocols/uart_parameter_identifier.py:251-271 | a reported share lies in [0, 1] and counts as found iff it reaches 0.9; the division by zero happens exactly when there are no frames |
| UartParameterIdentifier.ShareBounds | software/signal-analysis/signal_analysis/protocols/uart_parameter_identifier.py:267 | a count over a positive total is a share in [0, 1] |
| UartParameterIdentifier.FindParityBit | software/signal-analysis/signal_analysis/protocols/uart_parameter_identifier.py:223-273 | a reported share lies in [0, 1] and counts as found iff it reaches 0.9 |
| UartParameterIdentifier.ShareComplement | software/signal-analysis/signal_analysis/protocols/uart_parameter_identifier.py:259-267 | the even and odd shares of the same frames add up to 1 |
| UartParameterIdentifier.ParitySharesAddUp | software/signal-analysis/signal_analysis/protocols/uart_parameter_identifier.py:223-273 | the even and odd parity shares of a line add up to 1 |
| UartParameterIdentifier.ParityBitImplemented | software/signal-analysis/signal_analysis/protocols/uart_parameter_identifier.py:156-172 | "Unknown" and `False` carry no rate, "Odd" and "Even" carry one |
| UartParameterIdentifier.ParityNeverUnknown | software/signal-analysis/signal_analysis/protocols/uart_parameter_identifier.py:166-167 | both parities cannot reach 0.9, so "Unknown" is never the answer |
| UartParameterIdentifier.AmountDataBitsPerFrame | software/signal-analysis/signal_analysis/protocols/uart_parameter_identifier.py:174-182 | a frame as long as the rounded pattern length holds one start bit, the data bits, the stop bits and one parity bit exactly when the parity is truthy |
| UartParameterIdentifier.DataBitsOfCommonFrames | software/signal-analysis/signal_analysis/protocols/uart_parameter_identifier.py:174-182 | the usual formats come out: 10 symbols without parity and one stop bit give 8 data bits (8N1), 11 symbols with parity give 8 with one stop bit and 7 with two (8E1, 8O1, 7E2), and a measured length of 10.4 rounds to 8N1 |
| UartParameterIdentifier.VoltageWindows | software/signal-analysis/signal_analysis/protocols/uart_parameter_identifier.py:70-84 | with distinct lowest and highest levels the two tests are the windows of 10 % of the swing around those levels, and they exclude each other |
| UartParameterIdentifier.IsInvertedSignalLine | software/signal-analysis/signal_analysis/protocols/uart_parameter_identifier.py:86-96 | no levels or no resting voltage raise; else inverted iff resting near the lowest level, not inverted iff near the highest and not the lowest, undecided otherwise |
| UartParameterIdentifier.LineParameters | software/signal-analysis/signal_analysis/protocols/uart_parameter_identifier.py:29-60 | the entries before the block length: their keys, the stop bits ("Unknown" or the count) and the parity; no repeating pattern makes both "Unknown", and so do unknown stop bits for the parity |
| UartParameterIdentifier.StopBitsOf | software/signal-analysis/signal_analysis/protocols/uart_parameter_identifier.py:41-46 | without a repeating pattern the stop bits are "Unknown" with rating 0 |
| UartParameterIdentifier.ParityOf | software/signal-analysis/signal_analysis/protocols/uart_parameter_identifier.py:52-58 | unknown stop bits make the parity "Unknown" with rating 0 |
| UartParameterIdentifier.Assemble | software/signal-analysis/signal_analysis/protocols/uart_parameter_identifier.py:36-60 | the dictionary holds the inversion, baud, stop-bit and parity keys with their values |
| UartParameterIdentifier.BlockLengthEntry | software/signal-analysis/signal_analysis/protocols/uart_parameter_identifier.py:62-67 | known stop bits and parity give the data bits per frame; otherwise "Cannot be identified" as intended and no entry as written |
| UartParameterIdentifier.NoPatternIsUnknown | software/signal-analysis/signal_analysis/protocols/uart_parameter_identifier.py:41-67 | with the intended guard a line without a repeating pattern reports "Unknown" stop bits and parity and "Cannot be identified" as block length |
| UartParameterIdentifier.AsWrittenOmitsBlockLength | software/signal-analysis/signal_analysis/protocols/uart_parameter_identifier.py:63-67 | as written, such a line gets no block length entry, while the intended version has one |
| UartParameterIdentifier.BlockLengthAlwaysReported | software/signal-analysis/signal_analysis/protocols/uart_parameter_identifier.py:62-68 | the intended version always reports a block length, and differs from the written one only by that entry |
| UartParameterIdentifier.ParametersWith | software/signal-analysis/signal_analysis/protocols/uart_parameter_identifier.py:30-68 | fewer than two lines is an IndexError and a missing second line an AttributeError; a result holds the inversion, baud-rate, stop-bit and parity keys with their ratings, and at most the block length besides, and with the corrected guard always the block length |
| UartParameterIdentifier.ParametersAsWritten | software/signal-analysis/signal_analysis/protocols/uart_parameter_identifier.py:30-68 | with the guard as written a result holds at least the inversion, baud-rate, stop-bit and parity keys with their ratings |
| UartParameterIdentifier.Parameters | software/signal-analysis/signal_analysis/protocols/uart_parameter_identifier.py:30-68 | with the corrected guard a result holds exactly those keys and the block length |
| NetworkManager.SetConnectedOp | software/hardware-control/proboter/tasks/utils/network_manager.py:91-103 | `set_connected` connects the pins when the flag is true and disconnects them otherwise |
| NetworkManager.ConnectOp | software/hardware-control/proboter/tasks/utils/network_manager.py:105-120 | `connect` on the abstract sets; its shape (both pins registered, one set, the union of the "not connected" sets at the new representative) is stated by ConnectShape |
| NetworkManager.DisconnectOp | software/hardware-control/proboter/tasks/utils/network_manager.py:122-134 | `disconnect` on the abstract sets; each representative recorded in the other's "not connected" set, as DisconnectShape states |
| NetworkManager.ConnectionStateAsWritten | software/hardware-control/proboter/tasks/utils/network_manager.py:72-89 | CONNECTED exactly when both pins have one representative; NOT_CONNECTED exactly when they differ and either current representative is stored in the other's "not connected" set; otherwise UNKNOWN |
| NetworkManager.ConnectionStateOf | software/hardware-control/proboter/tasks/utils/network_manager.py:72-89 | CONNECTED exactly when both pins have one representative; NOT_CONNECTED exactly when they differ and some stored entry of either set now lies in the other set |
| NetworkManager.Networks | software/hardware-control/proboter/tasks/utils/network_manager.py:136-158 | every extracted network is the class of a representative and has at least two pins, and every class of two or more pins is a network |
| NetworkManager.FindIdempotent | software/hardware-control/proboter/tasks/utils/network_manager.py:80-117 | looking up a representative again gives itself |
| NetworkManager.RegisterFacts | software/hardware-control/proboter/tasks/utils/network_manager.py:113-131 | `find` of an unseen pin registers it without changing any set or "not connected" entry |
| NetworkManager.RelinkedFacts | software/hardware-control/proboter/tasks/utils/network_manager.py:116 | `union` of two representatives merges exactly their two sets and leaves every other pin's set alone |
| NetworkManager.ConnectShape | software/hardware-control/proboter/tasks/utils/network_manager.py:105-120 | `connect` renames the first pin's set to the second's, whose representative takes the union of both "not connected" sets |
| NetworkManager.DisconnectShape | software/hardware-control/proboter/tasks/utils/network_manager.py:122-134 | `disconnect` changes no set; each representative enters the other's "not connected" set and nothing else is added |
| NetworkManager.SoundRenamed | software/hardware-control/proboter/tasks/utils/network_manager.py:105-120 | recorded "not connected" pairs stay visible when the sets are renamed and their "not connected" sets move along |
| NetworkManager.WitnessRenamed | software/hardware-control/proboter/tasks/utils/network_manager.py:105-120 | a recorded pair between two sets still relates them after the sets are renamed |
| NetworkManager.ConnectKeeps | software/hardware-control/proboter/tasks/utils/network_manager.py:105-120 | `connect` keeps the manager's invariant: every recorded disconnect stays visible and every entry stems from one |
| NetworkManager.DisconnectKeeps | software/hardware-control/proboter/tasks/utils/network_manager.py:122-134 | `disconnect` keeps the invariant with the new pair recorded, and changes no set |
| NetworkManager.EmptyValid | software/hardware-control/proboter/tasks/utils/network_manager.py:61-70 | a new or cleared manager satisfies the invariant with nothing recorded |
| NetworkManager.ConnectionStateExact | software/hardware-control/proboter/tasks/utils/network_manager.py:35-89 | with the invariant the lookup is exact: CONNECTED iff the pins share a set, NOT_CONNECTED iff they do not and a recorded disconnect relates their two sets, UNKNOWN otherwise |
| NetworkManager.ConnectionStateSymmetric | software/hardware-control/proboter/tasks/utils/network_manager.py:72-89 | the connection state does not depend on the order of the pins |
| NetworkManager.EmptyUnknown | software/hardware-control/proboter/tasks/utils/network_manager.py:61-89 | with nothing recorded a pin is connected to itself and every other pair is UNKNOWN |
| NetworkManager.ConnectConnects | software/hardware-control/proboter/tasks/utils/network_manager.py:105-120 | after `connect(a, b)` the pins are connected, and every pair connected before still is |
| NetworkManager.ConnectTransitive | software/hardware-control/proboter/tasks/utils/network_manager.py:47-48 | case 1 of the class comment: connect(1, 2) and connect(2, 3) make 1 and 3 connected |
| NetworkManager.ConnectThenDisconnect | software/hardware-control/proboter/tasks/utils/network_manager.py:50-53 | case 2: connect(1, 2) and disconnect(2, 3) make 1 and 3 not connected |
| NetworkManager.StaleRepresentative | software/hardware-control/proboter/tasks/utils/network_manager.py:72-120 | the lookup as written answers UNKNOWN for pins 2 and 4 after disconnect(1, 3), connect(1, 2), connect(3, 4), although their sets were found not connected |
| NetworkManager.Manager.constructor | software/hardware-control/proboter/tasks/utils/network_manager.py:61-63 | a new manager holds no sets, no "not connected" entries and satisfies the invariant |
| NetworkManager.Manager.Clear | software/hardware-control/proboter/tasks/utils/network_manager.py:65-70 | `clear` resets the state to the empty one, invariant included |
| NetworkManager.Manager.FindPin | software/hardware-control/proboter/tasks/utils/network_manager.py:80-114 | `find` registers an unseen pin and returns its representative |
| NetworkManager.Manager.Connect | software/hardware-control/proboter/tasks/utils/network_manager.py:105-120 | the updates of `connect` yield the connect step and keep the invariant |
| NetworkManager.Manager.Disconnect | software/hardware-control/proboter/tasks/utils/network_manager.py:122-134 | the updates of `disconnect` yield the disconnect step, record the pair in both orders and keep the invariant |
| NetworkManager.Manager.SetConnected | software/hardware-control/proboter/tasks/utils/network_manager.py:91-103 | dispatches to connect or disconnect and keeps the invariant |
| NetworkManager.Manager.ConnectionStateOfPins | software/hardware-control/proboter/tasks/utils/network_manager.py:72-89 | the manager answers CONNECTED exactly when the two pins share a representative in its current state |
| NetworkManager.Manager.ExtractNetworks | software/hardware-control/proboter/tasks/utils/network_manager.py:136-158 | every network extracted from the manager has at least two pins |
| MoveCoordinator.IsBetween | software/hardware-control/proboter/hardware/move_coordinator.py:41-56 | a point is between the bounds iff a present left bound is at most its x and its x is below a present right bound; an absent bound is infinite |
| MoveCoordinator.IsBetweenHalfOpen | software/hardware-control/proboter/hardware/move_coordinator.py:54-55 | the interval includes its left bound, excludes its right bound, and with no bounds holds everywhere |
| MoveCoordinator.MaxOriginZ | software/hardware-control/proboter/hardware/move_coordinator.py:105-107 | the highest probe origin z is the z of one of the probes and no probe's is higher |
| MoveCoordinator.MakeConstraints | software/hardware-control/proboter/hardware/move_coordinator.py:310-319 | every pair of probes in sorted order, and no other pair, carries a constraint |
| MoveCoordinator.NewCoordinator | software/hardware-control/proboter/hardware/move_coordinator.py:80-116 | no probes raise ValueError from `max`; otherwise the probes are sorted by order index and a permutation of the given ones, high_2 is the highest origin z, high_1 = high_2 + 5, low = high_1 + 3, the speeds are kept and the constraints cover every sorted pair |
| MoveCoordinator.SafeLevel | software/hardware-control/proboter/hardware/move_coordinator.py:376-395 | P1 parks at high_1, P2 at high_2, the outer probes at the low level |
| MoveCoordinator.Presence | software/hardware-control/proboter/hardware/move_coordinator.py:334-335 | one flag per sorted probe: whether the map assigns it a destination that is not None |
| MoveCoordinator.FirstFrom | software/hardware-control/proboter/hardware/move_coordinator.py:332-349 | the first index from i on holding the flag, or the end; none before it holds it |
| MoveCoordinator.ContiguousIsRun | software/hardware-control/proboter/hardware/move_coordinator.py:321-329 | the assigned probes have no gap iff they form one run of consecutive sorted probes |
| MoveCoordinator.IsContinuous | software/hardware-control/proboter/hardware/move_coordinator.py:321-349 | the started/stopped loop answers exactly whether the assigned probes are gap-free |
| MoveCoordinator.ValidateDestinations | software/hardware-control/proboter/hardware/move_coordinator.py:118-148 | success iff the map is continuous and every constrained ordered pair of keys passes its constraint; a non-continuous map fails with InvalidDestinationsError, any other failure is that error or the TypeError of a missing destination |
| MoveCoordinator.DistinctPermutation | software/hardware-control/proboter/hardware/move_coordinator.py:133-135 | sorting the keys keeps them duplicate-free |
| MoveCoordinator.SortedPositions | software/hardware-control/proboter/hardware/move_coordinator.py:84-85 | in the sorted probes a probe of lower order index comes first |
| MoveCoordinator.SortedKeysFacts | software/hardware-control/proboter/hardware/move_coordinator.py:133-135 | the sorted keys are the map's keys, sorted by order index and duplicate-free |
| MoveCoordinator.ConstrainedPair | software/hardware-control/proboter/hardware/move_coordinator.py:310-317 | two different probes of the coordinator in order-index order are a constrained pair |
| MoveCoordinator.ValidatePairsOrdered | software/hardware-control/proboter/hardware/move_coordinator.py:138-148 | for a map over the coordinator's own probes the pair check passes iff every ordered pair of keys has destinations with x non-decreasing from left to right |
| MoveCoordinator.MinX | software/hardware-control/proboter/hardware/move_coordinator.py:365-366 | the smallest destination x is that of one destination and no destination's is smaller |
| MoveCoordinator.MaxX | software/hardware-control/proboter/hardware/move_coordinator.py:365-367 | the largest destination x is that of one destination and no destination's is larger |
| MoveCoordinator.LeftStep | software/hardware-control/proboter/hardware/move_coordinator.py:371-383 | one pass of the left loop: appending the parked probe and moving x on by delta |
| MoveCoordinator.RightStep | software/hardware-control/proboter/hardware/move_coordinator.py:386-398 | one pass of the right loop: appending the parked probe and moving x back by delta |
| MoveCoordinator.AddDestinationsForRemainingProbes | software/hardware-control/proboter/hardware/move_coordinator.py:351-398 | the two loops updating the map yield exactly the filled map, or the error of an empty map or a missing destination |
| MoveCoordinator.LeftFillersShape | software/hardware-control/proboter/hardware/move_coordinator.py:371-383 | the left loop parks unassigned probes from the left end in order, each no further right than its own current x, within 20 (k steps) of the start x and at most delta right of the previous |
| MoveCoordinator.LeftFillers | software/hardware-control/proboter/hardware/move_coordinator.py:371-383 | the entries of the left loop; LeftFillersShape states that entry k parks probe i + k, which was not yet a key, and where it goes |
| MoveCoordinator.RightFillers | software/hardware-control/proboter/hardware/move_coordinator.py:386-398 | the entries of the right loop; RightFillersShape states that entry k parks the k-th probe from the right after i, which was not yet a key, and where it goes |
| MoveCoordinator.RightFillersShape | software/hardware-control/proboter/hardware/move_coordinator.py:386-398 | the right loop's mirror image: probes from the right end, each no further left than its own x and at most delta left of the previous |
| MoveCoordinator.KeysFit | software/hardware-control/proboter/hardware/move_coordinator.py:368 | a map whose distinct keys are the coordinator's probes has at most as many entries as there are probes, so probe_count_diff is not negative |
| MoveCoordinator.LeftTailFacts | software/hardware-control/proboter/hardware/move_coordinator.py:370-383 | the left loop's entries are the leading probes without a destination, parked, starting at or left of min_x - probe_count_diff * 20 |
| MoveCoordinator.LeftKeys | software/hardware-control/proboter/hardware/move_coordinator.py:371-383 | the left loop keeps the map's own entries, in front and unchanged |
| MoveCoordinator.RightTailFacts | software/hardware-control/proboter/hardware/move_coordinator.py:385-398 | the right loop's entries are trailing probes placed by neither the map nor the left loop, parked, starting at or right of max_x + probe_count_diff * 20 |
| MoveCoordinator.LeftCount | software/hardware-control/proboter/hardware/move_coordinator.py:368-383 | the left loop parks no more probes than the map lacks |
| MoveCoordinator.RightCount | software/hardware-control/proboter/hardware/move_coordinator.py:368-398 | the right loop parks no more probes than the map lacks |
| MoveCoordinator.FilledKeeps | software/hardware-control/proboter/hardware/move_coordinator.py:351-398 | filling keeps every given entry as it was in front, and every appended entry is a probe without a destination, parked at its own y and its type's safety level |
| MoveCoordinator.LeftSeparated | software/hardware-control/proboter/hardware/move_coordinator.py:366-383 | every left-parked probe lies at least delta left of the smallest given destination x |
| MoveCoordinator.RightSeparated | software/hardware-control/proboter/hardware/move_coordinator.py:367-398 | every right-parked probe lies at least delta right of the largest given destination x |
| MoveCoordinator.FilledSeparated | software/hardware-control/proboter/hardware/move_coordinator.py:351-398 | every parked probe ends up at least delta outside the x-range of the given destinations |
| MoveCoordinator.XIntersection | software/hardware-control/proboter/hardware/move_coordinator.py:229-293 | None when path 2's end points miss path 1's x-range, or when either probe does not move in x or has feed 0; a result has a meeting time between the tolerance -0.1 and both travel times, and with positive feeds reduced feeds in (0, feed], at least one strictly lower |
| MoveCoordinator.LowerZAxis | software/hardware-control/proboter/hardware/move_coordinator.py:463-502 | with soft drop two phases (every destination with the soft-drop offset subtracted from z, at drop speed, then the destination at soft-drop speed), without one phase at drop speed; each phase moves every map entry in the map's order |
| Proboter.StepFactorMagnitude | firmware/Marlin/src/module/proboter.cpp:184-203 | after k edge transitions the step factor has magnitude 1 / 2^k |
| Proboter.HalvingBounded | firmware/Marlin/src/module/proboter.cpp:187-203 | while the step factor stays at or above min_step only boundedly many edge transitions can happen, so the probe_line loop ends |
| Proboter.PollOutcome | firmware/Marlin/src/module/proboter.cpp:223-232 | the poll loop commands no move; it reads the sensor at the stepper position before each advance, so the last queued position is never read; entered without contact it reports contact iff a position read is touched, records the z of the first one touched and leaves the steppers one position past it; without contact it keeps last_probed_z and empties the queue |
| Proboter.Poll | firmware/Marlin/src/module/proboter.cpp:223-232 | the poll loop as a function of the queue; its outcome is stated by PollOutcome |
| Proboter.Reads | firmware/Marlin/src/module/proboter.cpp:223-232 | the positions the poll loop reads: the stepper position first, as many as there are queued positions, the stepper alone when nothing is queued |
| Proboter.ProbeZSequence | firmware/Marlin/src/module/proboter.cpp:217-257 | `probe_z` plans the move to z_max, then quick-stops, synchronises, resyncs z and the plan position, retracts (absolute for z_retract >= 0, else by z_clearance below where it stopped) and synchronises; only z moves; the result is true iff a position read is touched, last_probed_z is the z of the first one touched inside the poll loop and is unchanged otherwise |
| Proboter.ProbeZRun | firmware/Marlin/src/module/proboter.cpp:217-257 | `probe_z` as a state transformer; its sequence of planner actions is stated by ProbeZSequence |
| Proboter.ProbeLineLoopOutcome | firmware/Marlin/src/module/proboter.cpp:181-215 | `probe_line` reports success exactly when the loop ended because the step fell below min_step, failure after 20 steps without an edge; once a step has run the out point is the current x, y and last probed z, otherwise nothing changes; ProbeLineConverges states where it stops |
| Proboter.StepFactor | firmware/Marlin/src/module/proboter.cpp:184-203 | the step factor after k edge transitions is positive for even k and negative for odd k: every transition reverses the direction |
| Proboter.ProbeLineLoop | firmware/Marlin/src/module/proboter.cpp:187-212 | the `probe_line` loop for any step function; its outcome is stated by ProbeLineLoopOutcome and ProbeLineConverges |
| Proboter.ScanLoop | firmware/Marlin/src/module/proboter.cpp:187-212 | the same loop for a sensor in contact exactly below offset e; its result is stated by ScanConverges and ScanFromStart |
| Proboter.ProbeLineLoopTracks | firmware/Marlin/src/module/proboter.cpp:187-212 | for a step that, from an idle machine at the retract height, leaves it idle there, adds f to a position and reports contact below e, the loop from an idle machine ends at the position, step factor and counter of ScanLoop |
| Proboter.ScanConverges | firmware/Marlin/src/module/proboter.cpp:187-212 | from a state that brackets the edge, the loop ends by success with a step below min_step and at most two final steps from the edge |
| Proboter.ScanFromStart | firmware/Marlin/src/module/proboter.cpp:181-215 | an edge within 20 steps of the start and a min_step of at most one step: success, ending less than two min_steps from the edge |
| Proboter.ScanOvershoot | firmware/Marlin/src/module/proboter.cpp:187-212 | with min_step 0.01 an edge at 0.0469 steps is left at 0.0625, more than one min_step away: the bound of two min_steps is needed |
| Proboter.AlongStepped | firmware/Marlin/src/module/proboter.cpp:188-190 | a lateral step by factor f along a non-zero direction adds exactly f to the offset along that direction |
| Proboter.SearchStepLateral | firmware/Marlin/src/module/proboter.cpp:188-194 | a search step ends at the laterally stepped x and y, since probing moves only z |
| Proboter.SearchStep | firmware/Marlin/src/module/proboter.cpp:188-197 | one pass of the search: the lateral step, the move there and `probe_z`; SearchStepLateral and SearchStepIdle state its effect |
| Proboter.SearchStepIdle | firmware/Marlin/src/module/proboter.cpp:188-254 | from an idle machine at an absolute retract height a search step leaves it idle there at the stepped x and y, and reports contact iff a position read during its `probe_z` is touched |
| Proboter.SearchStepsTrack | firmware/Marlin/src/module/proboter.cpp:188-197 | with an absolute retract height and a sensor as EdgeAt describes it (a read position touched exactly when the step goes below offset e), the search steps from an idle machine leave it idle, add f to the offset from the start and report contact below e |
| Proboter.ProbeLineConverges | firmware/Marlin/src/module/proboter.cpp:181-215 | from an idle machine at an absolute retract height, with the edge 0 < e <= 20 steps along a non-zero direction (EdgeAt) and 0 < min_step <= 1, `probe_line` succeeds, reports the x and y where it stopped, and stops less than two min_steps from the edge |
| Proboter.ProbeLineRun | firmware/Marlin/src/module/proboter.cpp:181-215 | `probe_line` with the firmware's search step; ProbeLineLoopOutcome, ProbeLineConverges and ProbeLinePinEdge state its outcome |
| Proboter.PinEdgeIsEdge | firmware/Marlin/src/module/proboter.cpp:217-232 | an ideal pin, touched at and above its surface height over the offsets below e, with a rising move passing through the surface and every move pausing at its end, meets EdgeAt whenever the retract height is below the surface and the probing target at or above it, so that assumption can be met |
| Proboter.ProbeLinePinEdge | firmware/Marlin/src/module/proboter.cpp:181-215 | against an ideal pin, `probe_line` from an idle machine below the pin's surface succeeds and stops less than two min_steps from the edge |
| Proboter.ProbeLineEdgeScenario | firmware/Marlin/src/module/proboter.cpp:149 | from an idle machine at x = 0 with the edge 4.37 along +X, the centring search with step 8 and min_step 0.01 succeeds at x = 4.375, within 0.01 of the edge |
| Proboter.ProbeLineEdgeScenarioMet | firmware/Marlin/src/module/proboter.cpp:149 | the same search against an ideal pin 4.37 along +X, its surface at z0 = 5, from an idle start at z0 minus a clearance of 1: found at x = 4.375 |
| Proboter.ProbeLineLoopUnfold | firmware/Marlin/src/module/proboter.cpp:187-212 | one loop pass: at an edge transition the step reverses and halves and the counter resets, otherwise the counter grows |
| Proboter.SearchesPointwise | firmware/Marlin/src/module/proboter.cpp:188-194 | a step function described by its effect agrees everywhere with the lateral step and probe of the loop |
| Proboter.ProbeLineLoopCongruent | firmware/Marlin/src/module/proboter.cpp:187-212 | the loop depends on its step only through the step's results |
| Proboter.CenterLoopStarts | firmware/Marlin/src/module/proboter.cpp:143-159 | every edge search starts from the probing centre of its turn: the first probe's position, x replaced by the mean of points 0 and 1 from search 2 on, y by the mean of points 2 and 3 from search 4 on; earlier points stay as they were |
| Proboter.CenterLoop | firmware/Marlin/src/module/proboter.cpp:145-159 | the six edge searches keep the buffer of six points; where each search starts is stated by CenterLoopStarts |
| Proboter.CenterLoopUnfold | firmware/Marlin/src/module/proboter.cpp:145-159 | one pass of the centring loop: one edge search, its point stored, the centre adjusted after searches 1 and 3 |
| Proboter.CentersPointwise | firmware/Marlin/src/module/proboter.cpp:147-149 | a search described by its effect agrees everywhere with moving to the centre and running `probe_line` |
| Proboter.CenterLoopCongruent | firmware/Marlin/src/module/proboter.cpp:145-159 | the centring loop depends on its search only through the search's results |
| Proboter.CenterCircleOutcome | firmware/Marlin/src/module/proboter.cpp:111-178 | without contact on the first probe the error message is the only output and the buffer of points stays as it was; otherwise the output is one message holding points 2..5 in index order, each coordinate as "%.3f" cut to the five characters `pos_string` holds, and all six searches start from their probing centres |
| Proboter.CenterCircleRun | firmware/Marlin/src/module/proboter.cpp:111-178 | `center_circle` as a state transformer; its output and starts are stated by CenterCircleOutcome |
| Proboter.Decimal | firmware/Marlin/src/module/proboter.cpp:165 | the decimal digits of a number: at least one, and exactly one below 10 |
| Proboter.DecimalRoundTrip | firmware/Marlin/src/module/proboter.cpp:165 | the digits read back as the number |
| Proboter.Thousandths | firmware/Marlin/src/module/proboter.cpp:165 | the three decimals of "%.3f", leading zeros kept |
| Proboter.ThousandthsValue | firmware/Marlin/src/module/proboter.cpp:165 | the three decimals read back as the thousandths |
| Proboter.Milli | firmware/Marlin/src/module/proboter.cpp:165 | the magnitude rounded to thousandths lies within half a thousandth of it |
| Proboter.FixedValueOf | firmware/Marlin/src/module/proboter.cpp:165 | a sign, digits, a point and three decimals read back as the signed number of thousandths |
| Proboter.Fixed3Of | firmware/Marlin/src/module/proboter.cpp:165 | the "%.3f" text of a coordinate that is a whole number of thousandths |
| Proboter.Fixed3RoundTrip | firmware/Marlin/src/module/proboter.cpp:165 | the "%.3f" text reads back as the coordinate rounded to thousandths, within 0.0005 of it |
| Proboter.Fixed3Length | firmware/Marlin/src/module/proboter.cpp:165 | the "%.3f" text has at least five characters, and exactly five iff the coordinate is not negative and rounds below 10 |
| Proboter.Snprintf | firmware/Marlin/src/module/proboter.cpp:162-173 | `snprintf` keeps a prefix of the text of at most size - 1 characters, the whole text exactly when it is shorter than the size, nothing for size 0 |
| Proboter.PosStringComplete | firmware/Marlin/src/module/proboter.cpp:162-173 | a coordinate is printed whole iff it is not negative and rounds below 10; it is always the first five characters of its "%.3f" text |
| Proboter.PosStringOf | firmware/Marlin/src/module/proboter.cpp:162-173 | the printed text of a coordinate of magnitude q + r/1000: the first five characters of its sign, digits, point and decimals |
| Proboter.PosStringTruncates | firmware/Marlin/src/module/proboter.cpp:162-173 | 12.345 prints as "12.34", not its "%.3f" text, 123.456 as "123.4" and -1.234 as "-1.23" |
| Proboter.WidePosStringExact | firmware/Marlin/src/module/proboter.cpp:162-173 | a 10-byte buffer holds the whole "%.3f" text of any coordinate below 1000 in magnitude, which reads back within 0.0005 |
| Proboter.PrintedPoints | firmware/Marlin/src/module/proboter.cpp:164-176 | one printed point per point; PrintedPointsAt states what each holds |
| Proboter.PrintedPointsAt | firmware/Marlin/src/module/proboter.cpp:164-176 | printed point k holds the texts of point k's x, y and z as `pos_string` holds them |
| Proboter.ProboterModule.constructor | firmware/Marlin/src/module/proboter.cpp:18 | the module starts at its home position with an idle planner, last_probed_z 0 and no output |
| Proboter.ProboterModule.LineToCurrentPosition | firmware/Marlin/src/module/proboter.cpp:148 | plans a move from the last planned end to the current position |
| Proboter.ProboterModule.QuickStopPlanner | firmware/Marlin/src/module/proboter.cpp:235 | drops every queued block; the steppers stay where they are |
| Proboter.ProboterModule.SynchronizePlanner | firmware/Marlin/src/module/proboter.cpp:236-254 | waits until the steppers have run every planned move |
| Proboter.ProboterModule.SetCurrentFromSteppersZ | firmware/Marlin/src/module/proboter.cpp:242 | takes the current z from the steppers |
| Proboter.ProboterModule.SyncPlannerPosition | firmware/Marlin/src/module/proboter.cpp:243 | the planner takes the current position as its own |
| Proboter.ProboterModule.ProbeZ | firmware/Marlin/src/module/proboter.cpp:217-257 | the state updates of `probe_z` yield exactly the probe_z step and its contact result |
| Proboter.ProboterModule.PollUntilContact | firmware/Marlin/src/module/proboter.cpp:223-232 | the polling loop yields exactly the poll step |
| Proboter.ProboterModule.StepAndProbe | firmware/Marlin/src/module/proboter.cpp:188-197 | one lateral step, the move there and the probe give the loop's step result |
| Proboter.ProboterModule.ProbeLine | firmware/Marlin/src/module/proboter.cpp:181-215 | the loop of `probe_line` yields exactly the probe_line outcome: state, out point and success, so from an idle start ProbeLineConverges bounds its distance from the edge |
| Proboter.ProboterModule.CenterCircle | firmware/Marlin/src/module/proboter.cpp:111-178 | the procedure yields exactly the centring outcome, and the serial output grows by its messages, the coordinates as `pos_string` holds them |
| Proboter.ProboterModule.PrintPoints | firmware/Marlin/src/module/proboter.cpp:164-176 | the printing loop yields exactly the printed forms of points 2..5, in order |
| Proboter.ProboterModule.SearchEdges | firmware/Marlin/src/module/proboter.cpp:131-159 | the six edge searches yield exactly the centring loop's state and points |
| Proboter.ProboterModule.EdgeSearch | firmware/Marlin/src/module/proboter.cpp:147-149 | one edge search: copying the centre, moving there and running `probe_line` |

## Left out

- The following are not modelled:
  - I/O of every kind: serial and USB drivers, HTTP, the database, logging, `print` and file export.
  - The scheduling of background jobs, asyncio locks and queues, and concurrency in general.
- Floating point is modelled as exact `real` arithmetic. Float rounding and NaN propagation are not modelled, except in the runtime correlation's ratings (below).
- `SignalGroupAggregator.DurationRatio`: inf, -inf and nan are one non-finite value (`Float64.NonFinite`), so the sign of an infinite rating is not modelled. The activity times are the input, built as empty sums or float64 sums, because the activity-list property is not modelled.
- `MoveCoordinator`:
  - The square roots of the intersection computation are not computed. The two path lengths are parameters, constrained to be the distances (`IsDistance`).
  - A zero-length path gives NaN in the source and `None` in the model, and both reject the intersection.
  - `coordinate_movement`, `_raise_z_axis` and `_move_in_xy_plane` are not modelled. `coordinate_movement` is a generator of movement plans: it validates and fills in the destinations, lowers the feeds of probe pairs whose paths meet until no pair meets (a loop the source does not bound), then yields the raise, xy and lower phases. The raise and xy phases read the probes' live positions. The model covers the validation, the filling, the path intersection and the lower phase.
- `Proboter`:
  - Marlin's planner internals, the stepper interrupt and the endstop hardware are abstract state. The contact sensor and the positions a move passes through are parameters.
  - The firmware's light and test-PCB functions and its M-code dispatch are not modelled.
  - The serial text around the calibration points (the echo prefix, the JSON punctuation and the line breaks) is not modelled, only the coordinate texts. `printf` rounding is taken on the exact value of a coordinate, not on its float.
- `Proboter.ProboterModule.ProbeLine`: requires a positive minimum step. The only caller passes 0.01. The source's loop would also stop for a non-positive one, after its 20 steps.
- `Proboter.ProbeLineConverges`: the search is proved to stop less than two minimum steps from the edge, measured in units of the step vector, not within one minimum step. `Proboter.ScanOvershoot` shows an edge 0.0469 steps from the start and a stop 0.0156 steps from it for a minimum step of 0.01. The edge is described by `Proboter.EdgeAt`: a position the poll loop reads is touched exactly when the step goes below the edge; `Proboter.PinEdgeIsEdge` shows an ideal pin that meets it. The search must start idle with the steppers at the retract height, and that height must be absolute (z_retract >= 0). In `center_circle` every search starts with the move to the probing centre still queued, at the height the first probe left, so the bound is not proved for the calls `center_circle` makes.
- `NetworkManager`: the disjoint-set library is not part of this model. It is abstracted to the map from each registered pin to its representative, and `union(a, b)` makes b's representative the new one. Path compression is not observable and is not modelled.
- `ArrayCodec`:
  - numpy's limit of 32 dimensions is not modelled.
  - The element bytes are taken as given: the conversion between float32 values and their bytes is not modelled.
  - The JSON string fields are modelled only for their pass-through cases. Their encoding is not modelled, because it depends on the json library. For their decoding, `json.loads` followed by `np.array` is a parameter.
- `CsvImporter.ImportCsvData`: the parsing of one number (`float()`) is a parameter. File reading is replaced by the file's text.
- `CsvImporter.Cells`: a line is split at every comma. The quoting rules of Python's `csv.reader` are not modelled, so a quoted cell such as `"2,5"` or `"CH 1"` is not read as one unquoted value.
- `CsvImporter.Strip`, `CsvImporter.IsSpace`: only the ASCII white space that `str.strip` removes is modelled. Unicode white space such as U+0085, U+00A0 or U+2003, which `str.strip` also removes, is kept.
- `EventIntervalAnalysis`: the following are not modelled:
  - the gaussian noise filter, which runs before the modelled code (the model takes the filtered signal as its input);
  - the histogram and delta-plot evaluations;
  - the time array;
  - the activity-list and extremum-search properties.

  The model covers the thresholds, the incident array, the interval arrays and the signal type.
- `DeltaAnalysis.GenerateDeltaLists`: requires a start of at least 1 and a step of at least 1. The source's callers pass constants that meet this. A step of 0 makes Python's `range` raise ValueError, and that case is not modelled.
- `DeltaAnalysis`: the plotting of the delta arrays and the time axis built with `np.arange` are not modelled.
- `SignalGroupAggregator.Aggregate`, `SignalGroupAggregator.SortSignals` and `SignalGroupAggregator.RetrievePeriodicSignals` require every line they sort to have a non-negative duration. With any negative duration the source's sort does not terminate: once only lines of negative duration are left, the longest duration stays at its start value 0, no line matches it, and nothing is removed.
- `SignalGroupAggregator`: lists the source mutates in place (`remove`, `copy`) are modelled as values. Objects are compared by value, not by identity.
- `ProtocolIdentifier`: each known protocol's own rating and parameter functions are parameters, not the concrete protocol classes.
- `PinDetector`: images are only their width and height, so pixel contents and OpenCV are not modelled. The neural-network detectors are not modelled.
- `PinDetectionMetrics.CalculateSimpleMetric`: `tp_abs_distances` is modelled by the squared distances, because the square root of a real is not computed. The model proves that they are never negative and are zero at the box centre, but not that they are positive away from it.
- `Visualization`: OpenCV's drawing calls are not modelled, only the points handed to them.
- `CamelCase`:
  - Dictionaries are association lists in insertion order.
  - The property that a later key wins holds only when the camelCase key comes first. `CamelCase.EarlierKeyWins` and `CamelCase.LaterKeyWins` state both cases. Neither order is treated as a defect.
- `CamelCase.Upper`, `CamelCase.Lower`, `CamelCase.Capitalize`: the case mapping covers ASCII letters only. Python's `str.upper`, `str.lower` and `str.capitalize` map every cased Unicode letter, so `a_élan` becomes `aÉlan` in the source and keeps its `é` in the model.
- `ReferenceBoard`: the image search for the board and its pose estimation are not modelled. Only the pin layout and the lookup by diameter are.

## Findings

| source | as written | input that shows it | evidently intended | confidence | as-written member | corrected member |
|---|---|---|---|---|---|---|
| software/hardware-control/proboter/tasks/utils/network_manager.py:72-120 | "not connected" entries are keyed by the representative at the time of the disconnect, but a later union can replace that representative without moving the entries | `disconnect(1, 3)`, `connect(1, 2)`, `connect(3, 4)`, then `connection_state(2, 4)` answers UNKNOWN | NOT_CONNECTED, since the two sets were found not connected | not executed | NetworkManager.StaleRepresentative (on `NetworkManager.ConnectionStateAsWritten`) | NetworkManager.ConnectionStateExact (on `NetworkManager.ConnectionStateOf`) |
| software/signal-analysis/signal_analysis/protocols/uart_parameter_identifier.py:62-68 | the block-length guard compares the stop bits with the misspelt "Unkown" | a data line without a repeating pattern, i.e. unknown stop bits | the "Cannot be identified" block length is reported | not executed | UartParameterIdentifier.AsWrittenOmitsBlockLength | UartParameterIdentifier.BlockLengthAlwaysReported, UartParameterIdentifier.NoPatternIsUnknown |
| software/signal-analysis/signal_analysis/protocols/spi_parameter_identifier.py:134-139 | the test is `high - 0.9 * swing < v < high - 1.1 * swing`, with the factors swapped, so its lower bound lies above its upper bound | a clock with levels 0 V and 5 V resting at 0.1 V is never CPOL "0" (0.5 < 0.1 < -0.5 fails) | `high - 1.1 * swing < v < high - 0.9 * swing`, within 10 % of the swing around the lowest level, as in the UART identifier | not executed | SpiParameterIdentifier.LowVoltageNeverAsWritten, SpiParameterIdentifier.PolarityZeroNeverAsWritten | SpiParameterIdentifier.PolarityZeroIntended |
| software/signal-analysis/signal_analysis/protocols/spi_parameter_identifier.py:130-132 | an undecided clock phase comes back as `None`, and lines 32-33 pass it to `dict.update` | equal coinciding-event counts at the even and odd clock edges | the parameters without a phase entry | not executed | SpiParameterIdentifier.UndecidedPhaseFailsAsWritten (on `SpiParameterIdentifier.ParametersAsWritten`) | SpiParameterIdentifier.UndecidedPhaseFailsAsWritten (second ensures, on `SpiParameterIdentifier.Parameters`) |
| software/signal-analysis/signal_analysis/analysis/signal_group_aggregator.py:166-173 | here and at lines 62-66, lines are removed from the list being iterated over, so the line after each removed one is skipped | two adjacent periodic lines | every line that passes is taken | not executed | SignalGroupAggregator.AsWrittenSkipsSecondPeriodic | SignalGroupAggregator.SweepIntendedTakesAll, SignalGroupAggregator.RetrievePeriodicSplits |
| software/signal-analysis/signal_analysis/analysis/signal_group_aggregator.py:123-148 | the cycle-time check returns a bare `False` where the caller unpacks a pair | a measured line without a first reoccurring duration, with a successful runtime correlation | that line is not correlated, `(False, 0)` | not executed | SignalGroupAggregator.MissingSymbolStopsCheck (first two ensures) | SignalGroupAggregator.MissingSymbolStopsCheck (third and fourth ensures) |
| software/signal-analysis/signal_analysis/model/signal_group.py:139-149 | every slot that is not `[]` has its resolution read with `get_time_resolution`, which neither an analysed line nor `None` provides; a group whose slots are all `[]` indexes an empty list | every group: one with a present line or a `None` slot, and one whose slots are all `[]` | the gcd of the resolutions of the present lines | not executed | SignalGroups.OptimumResolutionAsWrittenFails | SignalGroups.OptimumResolutionDivides, SignalGroups.OptimumResolutionGreatest |
