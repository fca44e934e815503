# Peregrine control plane, modelled in Dafny

Peregrine detects network attacks with a split design. A programmable switch
keeps per-flow traffic statistics at four decay resolutions. For every packet
it sends a record of those statistics to a controller. The controller turns
the record into an 80-value feature vector and scores it with the KitNET
anomaly detector. Scores at or above a threshold are alerts. The threshold is
the highest score seen during training.

This project models that control-plane core:

- `values.dfy` (module `Values`): values that may be NaN, record fields, and
  Python's `max`, `int()` and positional indexing.
- `decay.dfy` (module `Decay`): the decay-counter-to-position table
  `decay_to_pos`.
- `flow_stats.dfy` (module `FlowStats`): the four flow-statistics
  dictionaries (MAC+IP source, IP source, IP pair, five-tuple), updated slot
  by slot from one record (`update_stats`, the table part of
  `proc_next_packet`). It also holds the snapshot list that
  `save_train_stats` writes and a warm start reads back. The dictionaries
  live in a class, `FlowStatsStore`, whose methods update them in place.
  Pure functions over the dictionaries specify those methods.
- `driver.dfy` (module `Driver`): the training phases both driver loops share.
  These are exact statistics, approximate statistics, then execution. The
  module also holds the external feature calculator and scorer as function
  parameters.
- `pipeline_kitnet.dfy` (module `KitnetPipeline`): the offline pipeline
  `PipelineKitNET` and its `process()` loop. It covers:
  - training-phase sampling;
  - the execution counter and sampling gate;
  - the training-window attack check;
  - attack-detection timing;
  - the evaluation rows;
  - the one-shot calibration.

  The loop is proved to terminate. `Process` ensures a postcondition that
  says why the run stopped.
- `peregrine.dfy` (module `ControlPlane`): the controller's detector object
  `Peregrine`. It updates the dictionaries, keeps the training list and the
  execution list of feature vectors, and scores each vector. `Process` is
  `proc_next_packet` as a function of the detector's state (`DetState`).
  `Replay` runs it over a list of records and stops at the first KeyError.
- `controller_pipeline.dfy` (module `ControllerPipeline`): the switch
  controller's `pkt_pipeline` loop and `pkt_callback`, with the module's
  global lists as fields of a class, `Controller`. Ghost functions give one
  iteration as a function of the globals and the detector's state:
  `FetchSpec`, `DispatchSpec`, `ScoreSpec` and `StepSpec`. Each method is
  proved equal to its function. Lemmas prove that the loop's bookkeeping
  (`Inv`) is kept. The bookkeeping says that the detector's state and the
  scores are the replay of the scored records from the detector as it was
  built.
- `controller_config.dfy` (module `ControllerConfig`): the port arithmetic of
  `controller.py` and the constant match-action entries it installs:
  - the two recirculation entries;
  - decay checks;
  - the 16 power-of-two shift tables;
  - the ten one-bit flag tables (`res_struct_update`,
    `sum_res_prod_get_carry`, `pkt_cnt_1_access`, `ss_1_access` and
    `mean_1_access`, for the IP pair and the five-tuple);
  - the variance sign tables.
- `eval_metrics.dfy` (module `EvalMetrics`): the counting part of both
  evaluation scripts. `controller/eval_metrics.py` and `py/eval_metrics.py`
  count in the same way:
  - drop the training rows;
  - split by the threshold;
  - build the confusion matrix;
  - derive zero-defaulted rates.

External code appears only as parameters:
- the KitNET scorer is a function from (number of earlier calls, feature
  vector) to a score;
- the feature calculator is a function from (packets advanced over, mode) to
  an answer;
- the packet capture is a function from the capture number to a packet or a
  timeout;
- the ground-truth labels are a sequence.

### Source behaviour the model keeps

- **Label lookups end the run.** In `py/pipeline_kitnet.py` only the
  evaluation-row lookup (lines 242-252) sits inside `try`, so only that
  row is dropped on an IndexError. The other label lookups raise out of the
  loop: the training-window check (217-218), the attack timing (222-240) and
  the data-plane counter (178-179). The model ends the run with
  `LabelOutOfRange`.
- **`controller/pipeline.py` warm-starts without checking the files.** It
  warm-starts as soon as all four model names are given (lines 106-110). It
  never checks that the files exist, so a missing file fails later, when the
  snapshot is read (`ControllerPipeline.WarmStartUnchecked`).
  `py/pipeline_kitnet.py` checks that each file exists next to the script
  (lines 67-74) and otherwise falls back to a cold start. It then opens the
  statistics file relative to the working directory (line 84).
- **Calibration follows slots, not scores.** In `py/pipeline_kitnet.py`
  calibration runs only at a scored packet whose slot count (scores plus
  skipped packets) equals `train_grace` (lines 256-257). When the packet
  that completes the window is skipped by training sampling or is not IPv4,
  the threshold stays 0 for the rest of the run (`CalInv`, `CalibrateFacts`).
- **The sampling gate tests for equality.** In `controller/pipeline.py` the
  end-of-trace test at the sampling gate uses `==` (line 155). The test after
  scoring uses `>=` (line 187).

Further behaviour of the source that the proofs state:

- The training-window attack check in `py/pipeline_kitnet.py` runs after the
  score is appended and tests `len(rmse_list) < train_grace`. It therefore
  never checks the last training score (`CheckFacts`).
- An attack start time of exactly 0 re-arms detection. Detection freezes the
  counters at -1, but the attack-start branch fires again while
  `attack_init_ts == 0` (`DetInv`, `TimingFacts`).
- Flow keys are concatenations without a separator, so different flows can
  share a vector (`FlowStats.FiveTupleKeysCollide`).
- During a cold start's training, `controller/pipeline.py` counts no packet,
  so every training evaluation row carries the label at index fm+ad-1
  (`ControllerPipeline.Controller.TrainingRowsShareLabel`).
- After a KeyError on the decay counter, `cur_stats_global` already holds the
  record, with no score for it (`ControllerPipeline.Controller.RejectFacts`).

## Model

| member | source | states |
|---|---|---|
| Values.Sanitize | controller/Peregrine.py:82-83 | NaN becomes 0, every other value is kept, the length is unchanged |
| Values.SanitizeIdempotent | controller/Peregrine.py:83 | converting an already converted vector again changes nothing |
| Values.Max | controller/pipeline.py:182 | `max(rmse_list)` is one of the scores and no score is above it |
| Values.Trunc | py/pipeline_kitnet.py:228 | `int()` truncates toward zero: the result is within 1 of the input, on the input's side of 0 |
| Values.PyIndex | controller/pipeline.py:173 | `iat` succeeds exactly for -len <= i < len; a negative index counts from the end |
| Decay.DecayPos | controller/Peregrine.py:50 | the lookup succeeds exactly for a number equal to a table key, and the position is below 4 |
| Decay.DecayTableDomain | controller/Peregrine.py:21-22 | the table's keys are exactly the eight counters 0-4, 8192, 16384, 24576 |
| Decay.DecayAliases | py/pipeline_kitnet.py:22-24 | both key families reach each position: 8192·p and p+1 (p >= 1) map to p |
| Decay.DecayPreimage | controller/Peregrine.py:21-22 | an integer counter maps to p exactly when it is 8192·p, 1 for p = 0, or p+1 for p >= 1 |
| Decay.NonIntegralFails | controller/Peregrine.py:50 | a counter that is not an integer raises KeyError |
| Decay.DataPlaneCounterPosition | controller/controller.py:174-177 | the data-plane counter of position p is looked up as p |
| FlowStats.Keys | controller/Peregrine.py:52-55 | the four keys are the header fields concatenated, with no separator |
| FlowStats.Segment | controller/Peregrine.py:59-75 | a statistics slice holds the record's numeric fields at those offsets |
| FlowStats.Overwrite | controller/Peregrine.py:59-60 | slice assignment writes the values into the range and keeps every other slot |
| FlowStats.Touch | controller/Peregrine.py:57-60 | one dictionary update adds the key, writes the slot range of the decay position, keeps the other slots (0 for a new key) and leaves every other key alone |
| FlowStats.TouchInSteps | controller/Peregrine.py:57-60 | lazy creation followed by slice assignment is that one update |
| FlowStats.UpdateTables | controller/Peregrine.py:57-75 | after a record every vector keeps its 12 or 28 slots |
| FlowStats.RawFeatures | controller/Peregrine.py:77-80 | the concatenated vector has 80 values |
| FlowStats.ApplyRecord | controller/Peregrine.py:48-83 | the update succeeds exactly when the decay counter is known; a failure reports the counter; success stores all four keys and yields 80 features |
| FlowStats.UpdateFrame | controller/Peregrine.py:57-75 | each dictionary gains at most the packet's key, and every other key keeps its vector |
| FlowStats.UpdateSlots | controller/Peregrine.py:57-75 | the slot range [w·pos, w·pos+w) of each of the packet's vectors holds the record's statistics; every other slot keeps its value, or 0 |
| FlowStats.FeatureLayout | controller/Peregrine.py:77-83 | the features are the four stored vectors in order MAC-IP, IP source, IP pair, five-tuple, each with NaN as 0 |
| FlowStats.UpdateIdempotent | controller/Peregrine.py:57-75 | applying the same record twice leaves the dictionaries and the features as applying it once |
| FlowStats.TouchIdempotent | controller/Peregrine.py:57-60 | repeating one dictionary update changes nothing |
| FlowStats.UnknownDecayRejected | controller/Peregrine.py:50 | an unknown decay counter changes no dictionary and reports the counter |
| FlowStats.FiveTupleKeysCollide | controller/Peregrine.py:55 | ports 1234/80 and 123/480 give the same five-tuple key for distinct records |
| FlowStats.ToSnapshot | controller/Peregrine.py:96-99 | the saved list has the four dictionaries |
| FlowStats.ApplyAll | py/pipeline_kitnet.py:272-312 | replaying records one after the other keeps the dictionaries well formed and yields one feature vector per record |
| FlowStats.ApplyAllSnoc | py/pipeline_kitnet.py:272-312 | replaying one more record continues the replay with that record's update |
| FlowStats.FromSnapshot | controller/Peregrine.py:36-41 | restoring succeeds exactly for a list of at least four entries |
| FlowStats.SnapshotRoundTrip | controller/Peregrine.py:36-41 | restoring a saved list gives back every dictionary in its own role |
| FlowStats.SnapshotRestoreSave | controller/Peregrine.py:36-41 | saving restored dictionaries gives back the first four entries of the list |
| FlowStats.FlowStatsStore.constructor | controller/Peregrine.py:43-46 | a cold start has four empty dictionaries |
| FlowStats.FlowStatsStore.Restore | controller/Peregrine.py:36-41 | a warm start has the dictionaries at list positions 0..3 |
| FlowStats.FlowStatsStore.UpdateStats | py/pipeline_kitnet.py:272-312 | the new dictionaries and the returned features are those ApplyRecord gives; a KeyError changes nothing |
| FlowStats.FlowStatsStore.TouchSources | py/pipeline_kitnet.py:283-291 | the MAC-IP and IP-source dictionaries receive one update each |
| FlowStats.FlowStatsStore.TouchPairs | py/pipeline_kitnet.py:293-301 | the IP-pair and five-tuple dictionaries receive one update each |
| FlowStats.FlowStatsStore.Reset | py/pipeline_kitnet.py:396-402 | all four dictionaries become empty |
| FlowStats.FlowStatsStore.Save | py/pipeline_kitnet.py:315-319 | the saved list restores to exactly the current dictionaries |
| Driver.PhaseOf | controller/pipeline.py:136-147 | exact statistics exactly while a cold start has used fewer slots than the exact share; execution exactly on a warm start or once both the exact share and fm+ad are used |
| Driver.PhaseMonotone | controller/pipeline.py:136-147 | the phase never moves back from execution to training, or from approximate to exact, as the slot count grows |
| Driver.TrainingLimit | py/pipeline_kitnet.py:149-159 | training ends after a bounded number of slots, whatever the exact-statistics ratio |
| Driver.TrainingLeftStep | py/pipeline_kitnet.py:149-159 | the training slots still to go never grow, and shrink with every slot used in training |
| Driver.CountAttacks | py/pipeline_kitnet.py:178-180 | the count is the number of positions among the k from `start` whose label is 1 |
| KitnetPipeline.PipelineKitNet.constructor | py/pipeline_kitnet.py:48-89 | the run starts with empty lists and zero counters and no scored record; it warm-starts exactly when all four model files are given and exist, restoring the dictionaries |
| KitnetPipeline.PipelineKitNet.Answered | py/pipeline_kitnet.py:188-192 | no statistics stop the run with a timeout; a non-IPv4 packet uses up a slot; a record goes on to scoring |
| KitnetPipeline.PipelineKitNet.FetchCounted | py/pipeline_kitnet.py:177-184 | an execution packet advances the calculator; its label feeds the data-plane attack counter while it is armed, or ends the run past the labels |
| KitnetPipeline.PipelineKitNet.Fetch | py/pipeline_kitnet.py:148-184 | the phase decision, training sampling, the execution counter with its end-of-trace check, and the calculator call |
| KitnetPipeline.PipelineKitNet.ScoresAppend | py/pipeline_kitnet.py:200-215 | a score in a later slot keeps the scored slots strictly increasing |
| KitnetPipeline.PipelineKitNet.StopKeeps | py/pipeline_kitnet.py:268-270 | stopping between two packets keeps every invariant |
| KitnetPipeline.PipelineKitNet.StartBetween | py/pipeline_kitnet.py:112-115 | the loop invariant holds at the start, with label offset 0 on a cold start and the execution offset on a warm one |
| KitnetPipeline.PipelineKitNet.AdvanceKeeps | py/pipeline_kitnet.py:152 | advancing the calculator keeps the invariant |
| KitnetPipeline.PipelineKitNet.SkipKeeps | py/pipeline_kitnet.py:153-156 | a skipped slot keeps the invariant and uses up one slot |
| KitnetPipeline.PipelineKitNet.CountKeeps | py/pipeline_kitnet.py:172-176 | counting an execution packet keeps the invariant, and past the trace size the run ends correctly |
| KitnetPipeline.PipelineKitNet.DataPlaneKeeps | py/pipeline_kitnet.py:178-180 | the data-plane counter equals the number of attack labels among the execution packets counted so far |
| KitnetPipeline.PipelineKitNet.AnswerKeeps | py/pipeline_kitnet.py:188-192 | each calculator answer keeps the invariant or stops with a timeout |
| KitnetPipeline.PipelineKitNet.FetchTrainKeeps | py/pipeline_kitnet.py:149-168 | a training slot keeps the invariant; a record comes with no packet counted and its slot passing the training sampling |
| KitnetPipeline.PipelineKitNet.ExecFetchKeeps | py/pipeline_kitnet.py:177-184 | an execution packet within the trace keeps the invariant or stops past the labels or on a timeout |
| KitnetPipeline.PipelineKitNet.FetchExecKeeps | py/pipeline_kitnet.py:171-184 | the execution half of an iteration keeps the invariant and brings the end of the trace closer |
| KitnetPipeline.PipelineKitNet.FetchKeeps | py/pipeline_kitnet.py:148-184 | the first half of an iteration keeps the invariant: a skip brings the end closer, a stop says why, a record comes with the gates it passed |
| KitnetPipeline.PipelineKitNet.StartClock | py/pipeline_kitnet.py:222-226 | the first attack label sets the attack start time and counts the packet; an out-of-range label ends the run |
| KitnetPipeline.PipelineKitNet.Detect | py/pipeline_kitnet.py:228-236 | an attack-labelled score above the threshold (both truncated) records the detection |
| KitnetPipeline.PipelineKitNet.RecordDetection | py/pipeline_kitnet.py:232-236 | the latency and both packet counts are recorded, and both counters freeze at -1 |
| KitnetPipeline.PipelineKitNet.CountAttack | py/pipeline_kitnet.py:238-240 | while detection is armed, an attack label adds one to the packet counter |
| KitnetPipeline.PipelineKitNet.AttackTiming | py/pipeline_kitnet.py:222-240 | the three timing steps in order, each stopping the run on an out-of-range label |
| KitnetPipeline.PipelineKitNet.TimingFacts | py/pipeline_kitnet.py:222-240 | detection happens exactly for an attack-labelled packet scoring above the threshold; it records the latency; once frozen, timing never changes; only the timing fields change |
| KitnetPipeline.PipelineKitNet.CheckFacts | py/pipeline_kitnet.py:217-220 | the training check stops the run exactly for an attack label on one of the first train_grace-1 scores |
| KitnetPipeline.PipelineKitNet.Calibrate | py/pipeline_kitnet.py:258-260 | the threshold becomes the highest score so far and the dictionaries are saved |
| KitnetPipeline.PipelineKitNet.CalibrateOrEnd | py/pipeline_kitnet.py:256-267 | calibrate and switch the label offset at the score completing a cold start's window, otherwise stop at the trace end |
| KitnetPipeline.PipelineKitNet.CalibrateFacts | py/pipeline_kitnet.py:256-267 | calibration happens at most once, on a cold start, at the score completing the window, to the maximum of the scores up to it |
| KitnetPipeline.PipelineKitNet.AfterScore | py/pipeline_kitnet.py:217-267 | after a score: training check, attack timing, evaluation row (dropped on IndexError), then calibration or the end check |
| KitnetPipeline.PipelineKitNet.Score | py/pipeline_kitnet.py:195-201 | past the trace size the run ends; a packet off the sampling rate is skipped and leaves the dictionaries and scores alone; otherwise the record is scored |
| KitnetPipeline.PipelineKitNet.ScoreRecord | py/pipeline_kitnet.py:204-213 | the dictionaries become those the record's update gives and its features are scored; an unknown decay counter ends the run with the dictionaries unchanged |
| KitnetPipeline.PipelineKitNet.ScoreFeatures | py/pipeline_kitnet.py:213-215 | the score is the scorer's verdict on the features and is appended before the rest of the iteration |
| KitnetPipeline.VerdictsSnoc | py/pipeline_kitnet.py:213-215 | appending the scorer's verdict on the next vector keeps every score the verdict on the vector at its position |
| KitnetPipeline.PipelineKitNet.FedSnoc | py/pipeline_kitnet.py:204-215 | one more scored record keeps the dictionaries the in-order replay of the scored records and the scores their verdicts |
| KitnetPipeline.PipelineKitNet.FedKeeps | py/pipeline_kitnet.py:195-215 | whatever an iteration does to the dictionaries and scores keeps them the replay of the scored records |
| KitnetPipeline.PipelineKitNet.AppendScore | py/pipeline_kitnet.py:215 | the score is appended to rmse_list |
| KitnetPipeline.PipelineKitNet.AppendKeeps | py/pipeline_kitnet.py:215 | appending a score that passed the gates keeps the log ordered, calibration and the checked prefix |
| KitnetPipeline.PipelineKitNet.EvalKeeps | py/pipeline_kitnet.py:242-252 | the evaluation rows never outnumber the scores |
| KitnetPipeline.PipelineKitNet.CalibratedKeeps | py/pipeline_kitnet.py:256-261 | the score completing the window is a training score, so no execution packet has been counted when the label offset moves |
| KitnetPipeline.PipelineKitNet.CalibrateKeeps | py/pipeline_kitnet.py:256-267 | calibration or the end check keeps the invariant |
| KitnetPipeline.PipelineKitNet.AfterKeeps | py/pipeline_kitnet.py:217-267 | the rest of an iteration keeps the invariant or stops on an attack in training, a label out of range, or the trace end |
| KitnetPipeline.PipelineKitNet.TimedKeeps | py/pipeline_kitnet.py:222-267 | past the training check, the rest of an iteration keeps the invariant |
| KitnetPipeline.PipelineKitNet.ScoreKeeps | py/pipeline_kitnet.py:194-267 | the second half of an iteration keeps the invariant; a training score uses up exactly one slot |
| KitnetPipeline.PipelineKitNet.RecordKeeps | py/pipeline_kitnet.py:204-267 | a scored record keeps the invariant and uses up one slot |
| KitnetPipeline.PipelineKitNet.StepKeeps | py/pipeline_kitnet.py:121-270 | every iteration keeps the loop invariant and brings the end closer, or stops in a state that says why |
| KitnetPipeline.PipelineKitNet.Step | py/pipeline_kitnet.py:121-270 | one iteration is fetch followed by scoring; the dictionaries change only when a record is scored, to what its update gives |
| KitnetPipeline.PipelineKitNet.Process | py/pipeline_kitnet.py:109-270 | the loop terminates; at its end every score passed its gates in slot order, calibration happened at most once at the window's end, the training check held, and the exit reason holds; the dictionaries are the in-order replay of the scored records from the starting ones, and each score is the scorer's verdict on its record's replayed features |
| ControlPlane.TrainPart | controller/Peregrine.py:85-86 | the training list is a prefix of every vector filed, at most fm+ad long |
| ControlPlane.ExecPart | controller/Peregrine.py:87-88 | the execution list is the rest, and is non-empty only once the training list is full |
| ControlPlane.Filed | controller/Peregrine.py:85-88 | while the lists are split, the new vector joins the end of the history; the training list never grows past fm+ad |
| ControlPlane.FiledSplit | controller/Peregrine.py:85-88 | filing one more vector keeps the two lists the prefix/suffix split of the history |
| ControlPlane.FiledFromSplit | controller/Peregrine.py:85-88 | filing any run of vectors keeps that split |
| ControlPlane.FiledAll | controller/Peregrine.py:85-88 | from empty lists, the training list holds the first fm+ad vectors and the execution list all later ones |
| ControlPlane.Process | controller/Peregrine.py:48-92 | the detector's dictionaries stay well shaped |
| ControlPlane.ProcessFacts | controller/Peregrine.py:48-92 | a KeyError exactly for an unknown decay counter, changing nothing and naming it; otherwise the dictionaries are those ApplyRecord gives, the vector joins the end of the history, the split at fm+ad is kept, and the result is the scorer's verdict on the vector, numbered by its place |
| ControlPlane.Replay | controller/Peregrine.py:48-92 | a replay that succeeds leaves well-shaped dictionaries and gives one score per record |
| ControlPlane.ReplaySnoc | controller/Peregrine.py:48-92 | replaying one more record is processing it after the others, failing exactly when it raises |
| ControlPlane.ReplayScores | controller/Peregrine.py:48-92 | a replay from a split detector keeps the split, appends one vector per record to the history and keeps the earlier history; each score is the scorer's verdict on its own vector |
| ControlPlane.ReplayAccepts | controller/Peregrine.py:50 | a run of records replays exactly when every decay counter in it is in the table |
| ControlPlane.KnownSnoc | controller/Peregrine.py:50 | every record's counter is known exactly when the counters of the earlier records and of the last one are |
| ControlPlane.Peregrine.constructor | controller/Peregrine.py:10-46 | both lists start empty; a warm start restores the four dictionaries from list positions 0..3 |
| ControlPlane.Peregrine.ProcNextPacket | controller/Peregrine.py:48-92 | the new dictionaries, lists and result are Process of the old state and the record, and the lists stay split at fm+ad |
| ControlPlane.Peregrine.File | controller/Peregrine.py:85-88 | the vector is filed where Filed puts it, and the lists stay split at fm+ad |
| ControlPlane.Peregrine.SaveTrainStats | controller/Peregrine.py:95-108 | the saved list restores to the current dictionaries |
| ControlPlane.Peregrine.ResetStats | controller/Peregrine.py:190-196 | the four dictionaries become empty |
| ControllerConfig.MakePort | controller/controller.py:41-43 | for a pipe below 4 and a local port below 128, the port is 128·pipe + local |
| ControllerConfig.PortToLocalPort | controller/controller.py:46-51 | succeeds exactly when the low seven bits are below 72, and returns them |
| ControllerConfig.PortToPipe | controller/controller.py:54-59 | the pipe bits of a port whose local part is valid and which rebuilds to itself; its accepted ports are stated by PortToPipeAccepts |
| ControllerConfig.PortToPipeAccepts | controller/controller.py:54-59 | both assertions hold exactly for ports below 512 with a local part below 72; the pipe is port / 128 |
| ControllerConfig.PortRoundTrip | controller/controller.py:41-59 | splitting a built port gives back its pipe and local port |
| ControllerConfig.IndexOf | controller/controller.py:64 | `list.index` finds the first position of the value, or fails when it is absent |
| ControllerConfig.InternalPort | controller/controller.py:62-67 | the internal port of an external one; stated by InternalPortPairs and InternalPortFails |
| ControllerConfig.InternalPortPairs | controller/controller.py:62-67 | the internal port keeps the local port and sits in the internal pipe at the external pipe's position |
| ControllerConfig.InternalPortFails | controller/controller.py:62-67 | the mapping fails exactly for a malformed port or a pipe with no internal partner |
| ControllerConfig.RecirculationEntries | controller/controller.py:195-196 | the ingress port with the toggle set is sent to the internal port, which is sent on to the egress port, so the first entry's output is the second entry's match key; fails exactly when the internal port cannot be found |
| ControllerConfig.ForwardingPath | controller/controller.py:112-196 | ingress port 0 (pipe 0) recirculates through internal port 128 (pipe 1) and leaves on port 2 (pipe 0); the entries installed are (0, toggle set) to 128 and 128 to 2 |
| ControllerConfig.DecayChecksAgree | controller/controller.py:174-192 | in each of the four tables the i-th entry selects the i-th interval, for the counter the control plane maps to position i |
| ControllerConfig.ShiftTable | controller/controller.py:198-666 | every shift table is a prefix of the 32 rows |
| ControllerConfig.ShiftTablesShaped | controller/controller.py:198-666 | row i has priority 32-i, value 2^i, mask with the i low bits cleared, and shift i |
| ControllerConfig.MaskedShift | controller/controller.py:198-229 | the mask of shift d matches exactly the counts in [2^d, 2^(d+1)) |
| ControllerConfig.ShiftEntrySelects | controller/controller.py:211 | an entry matches exactly the counts whose highest set bit is its shift |
| ControllerConfig.MatchesOneShift | controller/controller.py:198-229 | two entries matching the same count shift by the same amount |
| ControllerConfig.ShiftTableUnique | controller/controller.py:198-666 | at most one entry of a shift table matches any count |
| ControllerConfig.FlagAction | controller/peregrine_tables.py:321-331 | an exact-match lookup returns the action of an entry holding the flag, and misses exactly when no entry holds it |
| ControllerConfig.FlagTablesSelect | controller/controller.py:286-532 | each of the ten flag tables hits exactly for flags 0 and 1, and the two flags select different actions |
| ControllerConfig.VarianceAbsSelects | controller/controller.py:376-392 | every variance matches exactly one sign entry, the negative one exactly when the sign bit is set |
| ControllerPipeline.PortFields | controller/pipeline.py:69-78 | UDP ports first, then TCP ports, otherwise '0' and '0' |
| ControllerPipeline.HeaderFields | controller/pipeline.py:68-78 | six text header fields |
| ControllerPipeline.Numbers | controller/pipeline.py:47-67 | every header statistic becomes a numeric field, in order |
| ControllerPipeline.Callback | controller/pipeline.py:40-79 | a record exactly for a packet with a Peregrine header: six header fields, the decay counter, then the statistics; with 20 statistics it is well formed |
| ControllerPipeline.TrainSkip | controller/pipeline.py:106-110 | a warm start exactly when all four model names are given; its relation to the offline pipeline is stated by WarmStartUnchecked |
| ControllerPipeline.WarmStartUnchecked | controller/pipeline.py:106-110 | every run the offline pipeline would warm-start also warm-starts here, but names alone suffice even when no file exists |
| ControllerPipeline.CalibrationStep | controller/pipeline.py:181-184 | a new score calibrates exactly when it completes a cold start's window, to the highest score; otherwise the threshold stays |
| ControllerPipeline.Controller.constructor | controller/pipeline.py:82-120 | empty lists, zero counter and threshold; warm start exactly when all four names are given, with the detector's dictionaries restored from the snapshot, otherwise empty; the loop's bookkeeping holds |
| ControllerPipeline.Controller.RowFor | controller/pipeline.py:169-177 | at most one row; a row exactly when the label at fm+ad+count-1 exists, holding the six header fields, the score and that label |
| ControllerPipeline.Controller.FetchSpec | controller/pipeline.py:135-147 | with a well-formed calculator and capture, whatever is fetched as a record is well formed |
| ControllerPipeline.Controller.CalibrateSpec | controller/pipeline.py:179-189 | only the threshold and the saved statistics can change |
| ControllerPipeline.Controller.AcceptSpec | controller/pipeline.py:168-189 | after an accepted score the records are unchanged, the score is appended, the evaluation gets the row RowFor gives, and the only stop is the end of the trace |
| ControllerPipeline.Controller.Judged | controller/pipeline.py:167-189 | the detector's state is proc_next_packet's; a stop is the end of the trace or a KeyError on the record's decay counter |
| ControllerPipeline.Controller.ScoreSpec | controller/pipeline.py:163-189 | the detector's dictionaries stay well shaped; a stop is the end of the trace or a KeyError on the record's decay counter |
| ControllerPipeline.Controller.DispatchSpec | controller/pipeline.py:149-192 | the detector's dictionaries stay well shaped |
| ControllerPipeline.Controller.StepSpec | controller/pipeline.py:123-192 | the detector's dictionaries stay well shaped through one iteration |
| ControllerPipeline.Controller.ScoresAreVerdicts | controller/pipeline.py:164-168 | between iterations the detector's lists are the prefix/suffix split of its history at fm+ad, and the i-th score is the scorer's verdict on the i-th vector |
| ControllerPipeline.Controller.ReplayedStep | controller/pipeline.py:164-168 | an accepted record extends the replay by one record, one vector and its score |
| ControllerPipeline.Controller.ReplayedGrow | controller/pipeline.py:165 | a record joining `cur_stats_global` before it is scored leaves the replay of the scored records unchanged |
| ControllerPipeline.Controller.EvalRowsGrow | controller/pipeline.py:165 | a record joining `cur_stats_global` keeps the evaluation rows matched to their scores |
| ControllerPipeline.Controller.EvalRowsStep | controller/pipeline.py:168-177 | a new score and its row, if any, keep one row per score with a label, in score order |
| ControllerPipeline.Controller.TrainingStep | controller/pipeline.py:136-147 | a score taken during a cold start's training keeps the packet count at 0 for all training scores |
| ControllerPipeline.Controller.FetchKeeps | controller/pipeline.py:135-147 | the fetch keeps the loop's bookkeeping |
| ControllerPipeline.Controller.RejectKeeps | controller/pipeline.py:165-167 | a KeyError leaves the record in `cur_stats_global` without a score, with the bookkeeping held and the counter reported |
| ControllerPipeline.Controller.AcceptedReplay | controller/pipeline.py:164-168 | an accepted record and its score extend the replay, and all records stay well formed |
| ControllerPipeline.Controller.AcceptedRows | controller/pipeline.py:168-177 | a sampled score and its row keep the sampling, row and training bookkeeping; calibration still holds for the earlier scores |
| ControllerPipeline.Controller.AcceptPending | controller/pipeline.py:164-177 | after the record, its score and its row, all bookkeeping except the calibration check holds |
| ControllerPipeline.Controller.HitKeeps | controller/pipeline.py:181-183 | calibrating at the score that completes a cold start's window restores the bookkeeping |
| ControllerPipeline.Controller.MissKeeps | controller/pipeline.py:181-189 | any other score needs no calibration for the bookkeeping to hold |
| ControllerPipeline.Controller.CalibrateKeeps | controller/pipeline.py:179-189 | the calibration check keeps the bookkeeping, or stops with it held and the reason true |
| ControllerPipeline.Controller.AcceptKeeps | controller/pipeline.py:164-189 | an accepted record keeps the bookkeeping, or stops with it held and the reason true |
| ControllerPipeline.Controller.ScoreKeeps | controller/pipeline.py:163-189 | scoring a sampled record keeps the bookkeeping, or stops with it held and the reason true |
| ControllerPipeline.Controller.DispatchKeeps | controller/pipeline.py:149-192 | the checks after the fetch keep the bookkeeping, or stop with it held and the reason true |
| ControllerPipeline.Controller.StepKeeps | controller/pipeline.py:123-192 | every iteration keeps the bookkeeping, or stops with it held and the reason true |
| ControllerPipeline.Controller.GateFacts | controller/pipeline.py:149-165 | a timeout exactly when nothing was fetched; a timeout, an off-rate count or a non-Peregrine packet changes no list and no detector state; off the rate the run ends exactly when fm+ad+count equals the trace size; a sampled record joins `cur_stats_global` |
| ControllerPipeline.Controller.RejectFacts | controller/pipeline.py:165-167 | a record with an unknown decay counter joins `cur_stats_global`, leaves the detector and every other list unchanged and stops the run naming the counter |
| ControllerPipeline.Controller.AcceptFacts | controller/pipeline.py:164-189 | a record with a known decay counter joins `cur_stats_global`; the dictionaries are those ApplyRecord gives; its vector joins the history; the scorer's verdict on it, numbered by its place, joins `rmse_list`; an evaluation row is added exactly when its label exists; the only stop is the end of the trace |
| ControllerPipeline.Controller.TrainingRowsShareLabel | controller/pipeline.py:173 | on a cold start every training-window evaluation row carries the label at index fm+ad-1 |
| ControllerPipeline.Controller.PktCallback | controller/pipeline.py:40-46 | `cur_stats` becomes the callback's value, and only a Peregrine packet is counted |
| ControllerPipeline.Controller.Fetch | controller/pipeline.py:135-147 | the new globals are FetchSpec of the old: a training phase asks the calculator (exact statistics first) without counting; execution captures one packet |
| ControllerPipeline.Controller.Record | controller/pipeline.py:165 | the record is appended to `cur_stats_global` and nothing else changes |
| ControllerPipeline.Controller.AppendScore | controller/pipeline.py:168 | the score is appended to `rmse_list`, with the packet count it was taken at |
| ControllerPipeline.Controller.Evaluate | controller/pipeline.py:169-177 | the newest score's evaluation row is appended when its label exists, and dropped otherwise |
| ControllerPipeline.Controller.Calibrate | controller/pipeline.py:181-183 | the threshold becomes the highest score and the saved statistics are the detector's dictionaries |
| ControllerPipeline.Controller.CalibrateOrEnd | controller/pipeline.py:179-189 | the new globals and the stop are CalibrateSpec of the old globals |
| ControllerPipeline.Controller.Accept | controller/pipeline.py:168-189 | the new globals and the stop are AcceptSpec of the old globals and the score |
| ControllerPipeline.Controller.ProcNextPacket | controller/pipeline.py:167 | the detector's new state and the result are Process of its old state and the record |
| ControllerPipeline.Controller.Judge | controller/pipeline.py:167-189 | the new globals, detector state and stop are Judged of proc_next_packet's outcome |
| ControllerPipeline.Controller.Score | controller/pipeline.py:163-189 | the new globals, detector state and stop are ScoreSpec of the old ones and the record |
| ControllerPipeline.Controller.Dispatch | controller/pipeline.py:149-192 | the new globals, detector state and stop are DispatchSpec of the old ones |
| ControllerPipeline.Controller.Step | controller/pipeline.py:123-192 | the new globals, detector state and stop are StepSpec of the old ones |
| ControllerPipeline.Controller.Run | controller/pipeline.py:122-194 | the detector's state and the scores are the replay of the scored records from the detector as built; every score was taken at a sampled count; the evaluation rows match the scores with labels; calibration follows its rule; training counts no packet; the exit reason holds; the returned lists are the run's |
| EvalMetrics.CutTraining | controller/eval_metrics.py:33-37 | fails exactly when a cold start has fewer rows than fm+ad; otherwise keeps all rows (warm) or the suffix after fm+ad |
| EvalMetrics.Benign | controller/eval_metrics.py:43 | rows scoring below the threshold, drawn from the input |
| EvalMetrics.Alert | controller/eval_metrics.py:45 | rows scoring at or above the threshold, drawn from the input |
| EvalMetrics.SplitPartitions | py/eval_metrics.py:37-39 | the benign and alert rows together are exactly the input rows |
| EvalMetrics.CountLabel | controller/eval_metrics.py:49-52 | the count is the multiplicity of the label in the group's label column, so it never exceeds the number of rows |
| EvalMetrics.Confusion | controller/eval_metrics.py:48-52 | TP and FP are the alert rows labelled 1 and 0, TN and FN the benign rows labelled 0 and 1; their totals are stated by ConfusionTotals |
| EvalMetrics.SplitCounts | py/eval_metrics.py:43-46 | each label's rows split between the two groups |
| EvalMetrics.ConfusionTotals | controller/eval_metrics.py:49-52 | TP+FN are the attack rows, TN+FP the benign rows, and the four add up to the rows labelled 0 or 1 |
| EvalMetrics.Ratio | controller/eval_metrics.py:54-57 | division, and 0 on ZeroDivisionError |
| EvalMetrics.RatesOf | controller/eval_metrics.py:54-92 | the eight rates, each 0 on a zero denominator; stated by RatesComplement and F1Bounds |
| EvalMetrics.F1Score | controller/eval_metrics.py:89-92 | the harmonic-mean formula, 0 on a zero denominator; stated by F1Equation and HarmonicMeanBounds |
| EvalMetrics.RateBounds | py/eval_metrics.py:48-81 | each rate lies in [0, 1] and is positive when its count is |
| EvalMetrics.ComplementaryRates | py/eval_metrics.py:48-66 | two rates over the same total add up to 1 |
| EvalMetrics.RatesComplement | controller/eval_metrics.py:54-87 | recall is TPR; TPR+FNR = 1 and TNR+FPR = 1 when there are rows of that label, and both are 0 otherwise |
| EvalMetrics.HarmonicMeanBounds | controller/eval_metrics.py:89-92 | F1 of two positive rates lies in (0, 1] |
| EvalMetrics.F1Equation | py/eval_metrics.py:83-86 | F1 times (recall + precision) is twice their product when the sum is non-zero |
| EvalMetrics.F1Bounds | controller/eval_metrics.py:89-92 | F1 is 0 exactly when TP is 0, and is otherwise the harmonic mean, in (0, 1] |
| EvalMetrics.Evaluate | controller/eval_metrics.py:33-92 | the counting part of the report fails exactly when a cold start has fewer rows than fm+ad |
| EvalMetrics.EvaluateCounts | py/eval_metrics.py:26-46 | the report's counts cover every kept row labelled 0 or 1 |

## Left out

- File I/O is not modelled: pickling, CSV and DataFrame writing, directory
  creation, `save_exec_stats`, `update_stats_global` and the spatial model
  export. Calibration records the saved dictionaries as a value instead.
- Console output (`print`) and the wall-clock timing in the progress messages
  are not modelled.
- KitNET (`AnomDetector.process`, `kitnet.process`) is an external function
  from (calls so far, vector) to a score. Its training and floating-point
  arithmetic are not modelled.
- The feature calculators (`FCKitNET`, `StatsCalc`) and scapy's `sniff` are
  external functions given as parameters. The calculator's own state
  (`fc_*` maps, residues) is not modelled, nor are the parts of
  `save_train_stats` that save it.
- `sort_values`, the ROC curve, AUC, EER and their output are left out. The
  sort does not change any count, and the rest is numerical library code.
- `configure_switch`'s gRPC calls, the table classes, `setup_grpc_client`,
  `swports_by_pipe`, `port_to_veth` and `get_port_from_pipes` (random choice)
  are left out. They are I/O or randomness. The model keeps the entries and
  port arithmetic they apply.
- Floating-point numbers are mathematical reals with an explicit NaN case in
  the statistics. Score comparisons treat scores as reals, so NaN scores are
  not modelled.
- ControllerPipeline.Controller.Run: runs for at most `fuel` iterations and
  stops with `FuelSpent` after that. `pkt_pipeline` can loop forever on
  foreign packets or on answers that do not apply, so no termination measure
  exists.
- ControllerPipeline.Controller.Run: keeps the saved dictionaries only as
  "saved or not" in its invariant. Their exact contents are stated at the
  calibration step, by `CalibrateSpec` and `Calibrate`.
- ControllerPipeline.Controller.Run: its postcondition is the bookkeeping
  that holds at the end (`Post`), not equality with a function of the whole
  run. The exact effect of each iteration is stated by `Step` (`StepSpec`).
- EvalMetrics.Evaluate: only the counting part is modelled. `roc_curve`
  (`controller/eval_metrics.py:94`, `py/eval_metrics.py:88`) and, in
  `py/eval_metrics.py:92`, `roc_auc_score` sit outside any `try`. They raise
  on kept rows of a single class, and the model does not capture that
  failure.
- KitnetPipeline.PipelineKitNet.constructor: the existence check looks next
  to the script, but the statistics file is opened relative to the working
  directory. The model takes the two to agree, so it does not capture an
  open that fails after the check passed.
- ControllerPipeline.Rate: the sampling rate is at least 1. A rate of 0 raises
  ZeroDivisionError in the source, and the model excludes it.
- KitnetPipeline.PipelineKitNet.Process requires a sampling rate of at least
  1, for the same reason.
- ControllerPipeline.Callback assumes the IP layer is present. A Peregrine
  header always rides on UDP, TCP or ICMP over IP.
- ControllerPipeline.Controller.Fetch: the calculator's `process_exact` and
  `process` are one function asked with an exactness flag.
- ControlPlane.Peregrine.constructor and FlowStats.FlowStatsStore.Restore
  require a snapshot of four dictionaries with vectors of 12 and 28 slots.
  A malformed pickle is not modelled.
- ControllerConfig: ports and match keys are 32-bit words. Python's integers
  are unbounded, so ports of 2^32 and above are not covered.
- ControllerConfig.ShiftTable: the 16 tables are modelled by their prefix
  lengths of one 32-row list. `ShiftTablesShaped` proves that the rows have
  the shape of lines 198-666.
- The per-packet update in `py/pipeline_kitnet.py` wraps the key
  construction in `except TypeError` (lines 275-281). Records are well
  formed, so that handler is not modelled.
- `LAMBDAS` and `lambdas` are fixed at 4, as both callers pass.
