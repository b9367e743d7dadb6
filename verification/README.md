# Traffic-graph feature pipeline: a verified model

This project models the feature-engineering core of `my_graph_tools.py` in
the graphnn_toy repository. The data is a road network whose edges and nodes
carry car counts. It is sampled over a weekly grid of 7 days × 2880
half-minute slots. From these raw snapshots the pipeline builds the inputs of
a graph network:

- **Cyclic time**: a (day, slot) successor and the chronological enumeration
  of the grid (`CyclicTime`).
- **Edge-to-downstream-node covariance**: for every edge, the unbiased
  covariance between the edge's first three features at the snapshots where
  it carries traffic and its receiver node's features at the next snapshot
  (`Covariance`).
- **M factor**: a per-node running average of (post count − inbound carrier
  total) over the snapshots where something happens (`MFactor`).
- **Feature assembly**: 13-column edge rows and 4-column node rows, then a
  row shuffle (`Features`).
- **Welford accumulators**: these turn the fed rows into per-column means
  and spreads (`Welford`, proved equal to the reference statistics in
  `Stats`).
- **Normalisation**: the z-score map and its inverse (`Normalize`).
- **Statistics tables**: how the tables are formed, in `create_nn_inputset`
  and in `get_norm_stats` (`NormStats`).
- **The driver** `create_nn_inputset` (`InputSet`): store the shuffled
  feature matrices, accumulate statistics from the first 50 edge rows and
  20 node rows of each snapshot, then normalise everything that was stored.
  `CreateInputSet` uses the global table as the program writes it;
  `CreateInputSetCorrected` uses the intended one (see Findings).

Values are exact Dafny reals. The raw data is a `Series` value: one node
matrix and one edge matrix per chronological position `t = day * NTG + tg`.
The HDF5 file is not modelled. Wherever the source needs a square root, the
model takes it as a function parameter `root`, constrained by
`NormStats.IsRoot` (non-negative, and it squares back to its argument).

## Model

| member | source | states |
|---|---|---|
| CyclicTime.Succ | my_graph_tools.py:311-314 | The successor of a valid (day, slot) pair is valid. The slot becomes (tg+1) mod NTG. The day stays the same unless the slot was the last of the day, in which case it becomes (day+1) mod 7. |
| CyclicTime.SuccIndex | my_graph_tools.py:311-314 | One successor step moves the chronological position forward by exactly one, modulo 7·NTG. Day 6's last slot wraps to day 0, slot 0. |
| CyclicTime.SuccPred | my_graph_tools.py:311-314 | The successor map has a two-sided inverse, so it permutes the grid. |
| CyclicTime.SuccInjective | my_graph_tools.py:354-357 | Two distinct snapshots never share a successor snapshot. |
| CyclicTime.SuccNIndex | my_graph_tools.py:311-314 | n successor steps advance the position by n modulo 7·NTG. |
| CyclicTime.CycleClosure | my_graph_tools.py:309-314 | 7·NTG successor steps from any snapshot return to that snapshot. |
| CyclicTime.IndexBijective | my_graph_tools.py:583-590 | Two valid pairs get the same chronological position if and only if they are equal. |
| CyclicTime.GetDaytimes | my_graph_tools.py:583-590 | The nested day/slot loops produce 7·NTG valid pairs, and row i sits at chronological position i. |
| CyclicTime.DaytimesEnumeration | my_graph_tools.py:583-590 | Every valid pair appears in the enumeration exactly once. The successor of row i is row (i+1) mod 7·NTG. |
| GraphData.PostIndex | my_graph_tools.py:311-317 | The snapshot read as "post" for position t is at position (t+1) mod 7·NTG. |
| Covariance.ActiveTimes | my_graph_tools.py:316 | Lists exactly the positions where the edge's channel 0 is positive, in increasing order. |
| Covariance.GatherSamples | my_graph_tools.py:306-326 | After the pass over the whole grid, each edge's sample list is exactly its active samples in chronological order. Each sample is the edge's first three features paired with the receiver's features at the successor snapshot. |
| Covariance.CovRow | my_graph_tools.py:331-335 | An edge with fewer than two samples keeps the zero row. Otherwise channel j times (n−1) equals the sum over samples of (x−mean x)(y−mean y), which is numpy's unbiased covariance of the paired channel-j series. |
| Covariance.CovRows | my_graph_tools.py:328-335 | The per-edge loop fills one 3-wide covariance row for each edge's gathered sample list, in edge order. |
| Covariance.GatherSnapshot | my_graph_tools.py:315-326 | One snapshot of the gathering pass appends, to the list of every edge active at that snapshot, its sample at the successor snapshot. Every list then holds the edge's active samples up to and including that snapshot. |
| Covariance.EdgeNodeCovariance | my_graph_tools.py:298-335 | Produces one 3-column row per edge. Each row is the per-channel n−1 covariance of that edge's active samples. The row stays zero when there are fewer than two samples. |
| Covariance.ActiveSamplesExact | my_graph_tools.py:316-331 | A snapshot contributes to an edge if and only if the edge's channel 0 is positive there. Its sample sits at the snapshot's place in the list, and is the edge's features paired with the receiver's features at the successor snapshot. |
| Covariance.CovRowOfTwo | my_graph_tools.py:332-334 | With exactly two samples, channel j of the row is (x1−x2)(y1−y2)/2. |
| Covariance.TwoActiveSamples | my_graph_tools.py:316-334 | An edge active in exactly two snapshots gets, per channel, the two-sample covariance of its two observations. |
| MFactor.Inbound | my_graph_tools.py:348-350 | An edge is in the lookup entry of node i if and only if its receiver is i. |
| MFactor.InboundAscending | my_graph_tools.py:350 | The lookup entry lists its edges in strictly increasing order, so each edge appears once. |
| MFactor.CarrierSumOfInbound | my_graph_tools.py:363-369 | Summing channel 0 over the lookup entry gives the same total as summing over every edge whose receiver is i. |
| MFactor.SumCarriers | my_graph_tools.py:364-369 | The inner loop's running total over a lookup entry equals the sum of channel 0 over the edges in that entry. |
| MFactor.NodeStep | my_graph_tools.py:363-376 | One node's update at snapshot t keeps the running state exact. Afterwards M is the mean of the node's counted discrepancies over snapshots 0..t, and k is one more than their count. |
| MFactor.MFactorSnapshot | my_graph_tools.py:354-376 | One snapshot of the M-factor pass moves every node's state from "exact up to t" to "exact up to t+1". |
| MFactor.NodeUpdate | my_graph_tools.py:371-376 | A step with zero inbound total and zero own post count leaves M[i] and ks[i] unchanged. Otherwise ks[i] advances by one, and M[i]·k equals the old M[i]·(k−1) plus (node 0's post count − inbound total). |
| MFactor.NodeUpdateTracks | my_graph_tools.py:371-376 | One node step keeps M[i] equal to the mean of the counted discrepancies, and ks[i] equal to one more than their number. |
| MFactor.CalcMFactor | my_graph_tools.py:341-376 | Over the full grid, node i ends with the mean of (node 0's post count − inbound total) over its non-skipped snapshots. It ends with 0 if every snapshot was skipped. |
| Features.EdgeRowLayout | my_graph_tools.py:434-441 | An assembled edge row carries the raw row in columns 0-3 and the covariance row in columns 4-6, unchanged. It also satisfies the description of the derived columns 7-12. |
| Features.EdgeRow | my_graph_tools.py:434-441 | An assembled edge row has 13 columns. Columns 0-3 are the raw row and 4-6 the covariance row, unchanged. Columns 7-12 satisfy the column description: cov[j]·raw[j], raw0·raw1, the rate (DTG/60)·raw1/raw3, and the rate times raw0. |
| Features.EdgeFeatureMatrix | my_graph_tools.py:434-441 | The engineered edge matrix of a snapshot has one 13-column row per edge. Row e starts with raw row e and covariance row e, and its derived columns satisfy the column description. |
| Features.ConsistentEdgeRowIsAssembled | my_graph_tools.py:434-441 | Any 13-column row that satisfies the column description is the assembly of its own columns 0-3 and 4-6. The layout therefore determines the row completely. |
| Features.EdgeFeatureColumns | my_graph_tools.py:434-441 | In the edge matrix, raw column j equals the raw edge column j, and covariance column j equals the covariance column j. Every row is well formed. |
| Features.NodeRowSplit | my_graph_tools.py:443-446 | A node row splits into its 3 raw features and its M factor, and reassembles to the same row. |
| Features.NodeRow | my_graph_tools.py:443-446 | A node row has 4 columns: the 3 raw node features unchanged, then the node's M factor. |
| Features.NodeFeatureMatrix | my_graph_tools.py:443-446 | The engineered node matrix has one 4-column row per node. Row i is raw row i followed by M[i]. |
| Features.NodeFeatureColumns | my_graph_tools.py:443-446 | In the node matrix, the raw columns equal the raw node columns, and column 3 equals the M-factor vector. |
| Features.Shuffle | my_graph_tools.py:449-450 | The in-place shuffle under the given draws returns a permutation of the input rows. |
| Features.ShuffleDown | my_graph_tools.py:449-450 | Any number of Fisher-Yates swap steps keeps the length and the multiset of rows. |
| Features.ShuffledPermutes | my_graph_tools.py:449-450 | Whatever the draws, a shuffled matrix has the same multiset of rows as the matrix it came from. |
| Features.ShuffledRows | my_graph_tools.py:449-463 | Every stored row is an assembled row, and every assembled row is stored. |
| Features.Take | my_graph_tools.py:451-456 | Feeds the first min(n, cap) rows, unchanged and in order. They form a sub-multiset of the matrix. |
| Welford.Start | my_graph_tools.py:424-427 | The initial accumulator (k = 1, zero mean, zero spread) summarises the empty row list. |
| Welford.Update | my_graph_tools.py:452-455 | One step advances k by one. k times each column's new mean equals (k−1) times its old mean plus the sample. Each spread grows by (x−m)²·(k−1)/k, where m is the old mean. |
| Welford.UpdateSummary | my_graph_tools.py:452-455 | A Welford step on the summary of some rows is the summary of those rows plus the new row. k is one more than the row count, the mean is the column arithmetic mean, and the spread is the sum of squared deviations. |
| Welford.Accumulate | my_graph_tools.py:451-460 | Feeding rows in order to an accumulator that summarises earlier rows yields the summary of all the rows. |
| Welford.FirstRow | my_graph_tools.py:452-455 | The first row fed becomes the mean exactly, and the spread stays zero. |
| Welford.Finalize | my_graph_tools.py:524-525 | There is a result exactly when k ≥ 2, that is, when at least one row was fed. The means are kept, and each variance times (k−1) equals its spread. |
| Welford.FinalizeSummary | my_graph_tools.py:524-525 | Finalising the summary of n > 0 rows gives the column means and the population (divide by n) variances. With no rows there is no result. |
| Welford.SummarySpreadNonNegative | my_graph_tools.py:610-619 | The accumulated spread and the finalised variance of every column are non-negative, so the square root is defined. |
| Stats.RangeMean | my_graph_tools.py:526 | The mean of 0, 1, …, n−1 is (n−1)/2. |
| Stats.RangeVariance | my_graph_tools.py:526 | The population variance of 0, 1, …, n−1 is (n²−1)/12. |
| Normalize.NormRow | my_graph_tools.py:567-568 | Multiplying each normalised entry back by its deviation and adding its mean recovers the input entry. |
| Normalize.UnnormRow | my_graph_tools.py:570-571 | Where the deviation is nonzero, normalising an un-normalised entry recovers the input entry. |
| Normalize.NormMatrix | my_graph_tools.py:567-568 | Every entry of the normalised matrix, multiplied by its column's deviation plus its column's mean, is the input entry. The shape is kept. |
| Normalize.UnnormMatrix | my_graph_tools.py:570-571 | Wherever a column's deviation is nonzero, normalising an entry of the un-normalised matrix gives back the input entry. The shape is kept. |
| Normalize.UnnormOfNorm | my_graph_tools.py:567-571 | Un-normalising a normalised matrix with the same table gives the matrix back, provided no deviation is zero. |
| Normalize.NormOfUnnorm | my_graph_tools.py:567-571 | Normalising an un-normalised matrix with the same table gives the matrix back, provided no deviation is zero. |
| Normalize.UnnormGraph | my_graph_tools.py:573-575 | Replaces only the node and edge features. Globals, senders, receivers and the per-graph counts are untouched. |
| Normalize.UnnormGraphRestores | my_graph_tools.py:567-575 | A graph whose features were normalised with two tables is restored exactly by un-normalising it with the same tables. |
| NormStats.StatsTableMeaning | my_graph_tools.py:524-525 | A finalised statistics table holds each column's mean in row 0 and the root of its population variance in row 1. |
| NormStats.Table | my_graph_tools.py:524-525 | A table exists exactly when at least one row was fed. Row 0 is the accumulator's means. With a square root and a non-negative spread, each row-1 entry is non-negative and its square times the row count is the spread. |
| NormStats.GlblStatsValues | my_graph_tools.py:526 | The intended global table has day mean 3 and deviation 2, and slot mean 1439.5 with a nonzero deviation. |
| NormStats.GlblStatsAsWritten | my_graph_tools.py:526 | The global table as written is a 2×2 statistics table. |
| NormStats.GlblStatsAsWrittenValues | my_graph_tools.py:526 | The table as written is [[3, 2], [1439.5, std(range(NTG))]]. Its deviation row has no zero, so normalising with it is defined. |
| NormStats.GlblStatsTransposed | my_graph_tools.py:526 | The table as written is the transpose of the intended one, and differs from it in both off-diagonal entries. |
| NormStats.GlblNormDiscrepancy | my_graph_tools.py:539 | For the global row (day 6, slot 0), the intended table normalises the day to 1.5. The table as written normalises it to 3/1439.5. |
| NormStats.FeedChecked | my_graph_tools.py:604-609 | The feed succeeds exactly when every row has the accumulator's width. k then grows by the number of rows fed. |
| NormStats.FeedCheckedSummary | my_graph_tools.py:604-609 | Rows of the accumulator's width are all absorbed, and the result summarises the earlier rows plus these. |
| NormStats.GroupStats | my_graph_tools.py:603-619 | A group's statistics succeed exactly when every row has the accumulator's width and there is at least one row. A width mismatch fails with BroadcastMismatch, and an empty group with NoRows. |
| NormStats.GroupStatsMismatch | my_graph_tools.py:595-607 | Rows of a width other than the accumulator's make the group's statistics fail. |
| NormStats.GetNormStatsAsWrittenFails | my_graph_tools.py:595-607 | As written, the pass fails at the first stored node row, because the node accumulator is 5 wide and node rows have 4 columns. |
| NormStats.GetNormStatsAsWritten | my_graph_tools.py:593-621 | The pass as written: on success the node table is 5 wide and the edge table 13 wide, both groups had rows, and the global table is the one written at line 621. |
| NormStats.GetNormStats | my_graph_tools.py:593-621 | The corrected pass: on success the node table is 4 wide and the edge table 13 wide, both groups had rows, and the global table is the intended one. |
| NormStats.GetNormStatsMeaning | my_graph_tools.py:593-621 | With a 4-wide node accumulator, the pass succeeds exactly when both groups have rows. Each table is then the statistics table of all the rows of its group, and the global table is the intended one. No node rows gives NoRows. |
| InputSet.StoreAndAccumulate | my_graph_tools.py:429-463 | After pass 1 over the whole cycle, in (day, slot) order, the stored matrices are the shuffled assembled matrices of every snapshot. The two accumulators summarise exactly the first 50 edge rows and first 20 node rows of each stored snapshot, in feeding order. |
| InputSet.FeedEdgeSnapshot | my_graph_tools.py:434-455 | One snapshot's edge step stores the shuffled assembled matrix. It moves the edge accumulator from the summary of the rows fed before t to the summary that also covers this snapshot's first 50 rows. |
| InputSet.FeedNodeSnapshot | my_graph_tools.py:443-460 | The same for the node matrix and its first 20 rows. |
| InputSet.SnapshotStep | my_graph_tools.py:432-463 | One slot of pass 1 extends the invariant from t to t+1. The invariant says both accumulators summarise everything fed so far and the stored lists hold the matrices of snapshots 0..t. |
| InputSet.DayPass | my_graph_tools.py:431-463 | One day of pass 1 extends the same invariant from day·NTG to (day+1)·NTG. |
| InputSet.BuildInputSet | my_graph_tools.py:391-551 | For any global table with nonzero deviations: a missing covariance dataset, then a missing M-factor dataset, each stop the run with its own error. Otherwise the run succeeds exactly when both fed-row statistics tables have nonzero deviations. It then stores every shuffled snapshot matrix normalised with those tables, and the globals normalised with the given table. |
| InputSet.CreateInputSet | my_graph_tools.py:391-557 | The construction as the program performs it. The error cases and the success condition are those of BuildInputSet. On success the globals are normalised with, and stored beside, the global table as written at line 526. |
| InputSet.CreateInputSetCorrected | my_graph_tools.py:391-557 | The same construction with the intended global table in place of the line-526 table. |
| InputSet.InputSetGlobalsAsWritten | my_graph_tools.py:526-551 | In the stored globals, a row (day, slot) becomes ((day−3)/1439.5, (slot−2)/std(range(NTG))). |
| InputSet.NormalisePass | my_graph_tools.py:531-551 | Given the stored matrices and three tables with nonzero deviations, every stored edge and node matrix is normalised with its group's table, and every snapshot's globals with the global table. The three tables are stored as given. |
| InputSet.InputSetRestores | my_graph_tools.py:431-551 | Un-normalising a produced snapshot with its own tables gives back the stored matrices and the original globals. The stored matrices are permutations of the assembled ones, and every stored edge row is well formed. |
| InputSet.InputSetStats | my_graph_tools.py:451-460 | Each stored table holds the column means of the fed rows and the roots of their population variances. The fed rows are the first 50 edge rows and the first 20 node rows of every shuffled snapshot. |

## Left out

- The TensorFlow/Sonnet model classes, `draw_graph`, `get_node_coord_dict`, `copy_graph` and `snap2graph` are not modelled. They are library composition, plotting and graph-library conversion.
- HDF5 is not modelled: opening and closing the file, creating or deleting groups and datasets, compression and progress bars. Stored datasets are sequences of matrices. A missing dataset is an `Option` value that is `None`.
- `np.random.shuffle` is modelled as Fisher–Yates with the random draws passed in as `picks`: one draw sequence per snapshot for the edge matrix (`edgePicks`) and one for the node matrix (`nodePicks`).
- `np.sqrt` and `np.std` are modelled through the caller-given `root` function. Floating-point rounding, NaN and infinity are not modelled.
  - A zero deviation in an edge or node table (numpy would divide by zero) becomes the `DegenerateStats` error of `CreateInputSet`.
  - An empty group in `get_norm_stats` (numpy would give 0/0) becomes `NoRows`.
  - A zero raw edge feature 3 is excluded by `Inputs.Valid` (`RatesDefined`).
- `NodeUpdate` and `CalcMFactor` keep the source's reading of node 0's post count (line 374) for every node. This is modelled as written and not corrected.
- `Welford.FinalizeSummary` follows the code, not the documented intent. Because k starts at 1, `sumsq/(k-1)` divides by n, so the deviations are population deviations, not sample (n − 1) deviations.
- `GetNormStats` feeds the datasets in the order given. The HDF5 group iteration order is not modelled.
- `NormStats.FeedChecked` treats any width mismatch as a failure. numpy would also broadcast a width-1 row. That case cannot arise with stored rows.
- The commented-out statistics block (lines 487-522), the dead `if 0:` branch (lines 541-547), the print statements and the delete-on-exception around the saved tables are not modelled.
- `get_norm_stats` writes its three tables to the file (lines 623-632). The model returns them as a `NormTables` value.

## Findings

| source | as written | input that shows it | evidently intended | confidence | as-written member | corrected member |
|---|---|---|---|---|---|---|
| my_graph_tools.py:526 (also 621) | `glbl_stats = [[3.0,2.0],[mean(range(NTG)),std(range(NTG))]]` puts the day channel's mean and deviation in the mean row, and the slot channel's in the deviation row | the global row (day 6, slot 0): its day normalises to 3/1439.5 instead of 1.5, and every slot is centred on 2.0 instead of 1439.5 | row 0 = means [3, 1439.5], row 1 = deviations [2, std(range(NTG))] | medium, not executed | NormStats.GlblStatsAsWritten (NormStats.GlblStatsTransposed, NormStats.GlblNormDiscrepancy), used by InputSet.CreateInputSet (InputSet.InputSetGlobalsAsWritten) | NormStats.GlblStats (NormStats.GlblStatsValues), used by InputSet.CreateInputSetCorrected |
| my_graph_tools.py:595 | `node_stats = np.zeros((2,5))`, but the stored node rows have 4 columns (line 443) | any non-empty stored node group: the first Welford step cannot broadcast a 4-wide row against the 5-wide mean | a node accumulator 4 wide, as in line 424 | high, not executed | NormStats.GetNormStatsAsWritten (NormStats.GetNormStatsAsWrittenFails) | NormStats.GetNormStats (NormStats.GetNormStatsMeaning) |
