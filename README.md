# Federated learning clients and servers, modelled in Dafny

The repository is a family of small federated-learning programs. Each one
is a TCP server and a client that trains on a local CSV file. The model
families are linear regression, logistic regression, linear SVM, kernel SVM
("temp"), k-means, Gaussian naive Bayes, AdaBoost and random forests. A
client trains on batches of rows and sends a model update. The server
aggregates the update into a global model and replies with that model.

This project models the sequential logic under the sockets and threads.
The socket is a sequence of tokens (`Int(i)` or `Dbl(r)`). A writer
appends tokens and a reader consumes them, failing on a short or
ill-typed stream. A C++ `double` is a Dafny `real`. The socket, exp/log,
the kernel, the norm, the random generator and the number parsers are
parameters.

| module (file) | what it models |
|---|---|
| `Wire` (wire.dfy) | token reads, `send_in_batches` chunking, chunked receive loops |
| `Vec` (vectors.dfy) | element-wise vector arithmetic and sums |
| `Frames` (frames.dfy) | vector request frames: optional batch size, size, values; the size check against a cap |
| `Averaging`, `TempServer`, `LsvmServerUpdated` | `aggregate_model` as a running mean, and the session loop of the temp and updated LSVM servers |
| `LogisticServerUpdated` | the size-once session with the reset rule of the updated logistic server |
| `GradientStep`, `LogisticServer`, `LsvmServer`, `LinearServer` | the three `apply_gradient_update` variants and their sessions |
| `Matrices`, `KMeansServer`, `KMeansClient` | matrix frames, the centroid running sum and average, one k-means iteration |
| `Moments`, `NaiveBayesServer`, `NaiveBayesClient` | per-class count/mean/variance statistics, the pairwise merge, the batch loop |
| `Stumps`, `AdaBoostServer`, `AdaBoostClient` | learner triples, append then top-20 ranking, stump search and boosting rounds |
| `ForestFrames`, `RfServer`, `RfServerUpdated`, `RfClientUpdated` | length-prefixed forest frames, forest flattening and append |
| `HingeCursor` | the fixed-100 `train_incrementally` cursors of the RF and updated LSVM clients |
| `ResumeCursor` | the resuming `train_incrementally` cursors of the updated linear and logistic clients |
| `KernelCursor` | the kernel-SVM cursor of the temp client |
| `LsvmClient`, `LinearClient`, `LogisticClient`, `BatchClient` | the per-batch gradients and the batch loops of the original clients |
| `Csv`, `LinearLoader`, `KMeansLoader`, `RfLoader` | the three `load_data` CSV readers |

Stateful code is imperative: servers are classes whose methods update the
global state, and loops are methods with invariants. Each method is proved
against a specification function. The properties proved about those
functions include:
- round trips of every frame a client writes and a server reads;
- the global model is the mean of every update received, in any order;
- the naive Bayes merge computes the pooled statistics;
- the AdaBoost reply holds the heaviest learners;
- every resume cursor visits each row once per epoch;
- sessions that end early leave the state untouched.

## Model

| member | source | states |
|---|---|---|
| Wire.ReadInt | LSVM/server_updated.cpp:47 | a successful read of an `int` consumes exactly one token |
| Wire.ReadDbl | LSVM/server_updated.cpp:71 | a successful read of a `double` consumes exactly one token |
| Wire.ReadDbls | LSVM/server_updated.cpp:71 | a successful read of a buffer of `n` doubles yields `n` values and consumes exactly `n` tokens |
| Wire.ReadDblsOfDbls | LSVM/server_updated.cpp:69-84 | a buffer of doubles written to the socket is read back unchanged by a read of exactly its length, and whatever follows it is left unread |
| Wire.ChunksShape | LSVM/client.cpp:37-45 | the buffers of `send_in_batches` are ceil(n / chunk) in number, each non-empty and at most `chunk` long, and together they are the whole vector |
| Wire.ChunksCount | LSVM/client.cpp:38-44 | the number of buffers k satisfies (k-1)·chunk < n <= k·chunk |
| Wire.ChunksConcat | LSVM/client.cpp:38-44 | the buffers, concatenated in order, give back the vector |
| Wire.ChunksSizes | LSVM/client.cpp:41 | every buffer holds between 1 and `chunk` values |
| Wire.ChunkAt | LSVM/client.cpp:39-43 | buffer k starts at offset k·chunk and holds min(chunk, n - k·chunk) values |
| Wire.ConcatAppend | LSVM/client.cpp:38-44 | writing one list of buffers after another writes their concatenation |
| Wire.SendInBatches | LSVM/client.cpp:37-45 | the `sent < total_size` loop hands the write calls exactly the chunk list of the vector, at most `chunk` values each, which concatenate to the vector |
| Wire.ReceiveInChunks | LSVM/server_updated.cpp:65-84 | reading `size` doubles in reads of at most `chunk` values succeeds exactly when one read of `size` values does, with the same values and the same unread suffix; a failed read ends it |
| Vec.SumAllPermutation | LSVM/server_updated.cpp:27 | the element-wise sum of a list of vectors does not depend on their order |
| Vec.SumAllRemove | LSVM/server_updated.cpp:27 | moving one vector to the front of the list leaves the element-wise sum unchanged |
| Vec.SumDiv | LSVM/server_updated.cpp:31 | dividing every entry by c divides the sum by c |
| Frames.ReadHeader | temp/server.cpp:37-38 | a header read that succeeds consumes at least one token (the size, or the batch size and the size) |
| Frames.ReadRequest | LSVM/server_updated.cpp:47-84 | a decoded request carries a size accepted by the size check (`0 < size <= cap`); a rejection is a failed header read, a refused size, or a payload that broke off |
| Frames.ReceiveRequest | LSVM/server_updated.cpp:43-84 | the header reads, the size check and the chunked payload loop of a vector server decode exactly what `ReadRequest` specifies |
| Frames.ReadFrame | temp/server.cpp:34-52 | a server reads back exactly the request (batch size, vector) a client framed, and leaves what follows unread |
| Frames.ReadTruncated | LSVM/server_updated.cpp:69-79 | a request whose payload is shorter than its announced size is rejected as a payload failure |
| Frames.ReadClosed | LSVM/server_updated.cpp:47-51 | reading from a closed stream fails at the header |
| Averaging.AggregateConsistent | LSVM/server_updated.cpp:20-35 | `aggregate_model` keeps the invariant global = total / client_count, counts one more client, and gives the total the update's length |
| Averaging.AggregateAllTotals | LSVM/server_updated.cpp:20-31 | after aggregating a list of updates, the total is the old total plus their element-wise sum, the count has grown by their number, and the global model is total / count |
| Averaging.AggregateAllCount | LSVM/server_updated.cpp:28 | each aggregate counts exactly one client |
| Averaging.AggregateAllTotal | LSVM/server_updated.cpp:23-27 | the total starts at zeros of the update's length and accumulates every update |
| Averaging.AggregateAllGlobal | LSVM/server_updated.cpp:31 | after any non-empty run of aggregates the global model is total / client_count |
| Averaging.MeanOfAllUpdates | LSVM/server_updated.cpp:20-31 | from a fresh server, the global model is the element-wise mean of every update received, the total their sum and the count their number |
| Averaging.OrderIndependent | LSVM/server_updated.cpp:20-31 | the order in which the updates of concurrent clients arrive does not change the final globals |
| Averaging.Round | LSVM/server_updated.cpp:42-93 | one round reads a request, aggregates it and replies; a round that goes on consumes input |
| Averaging.SessionOfUpdates | LSVM/server_updated.cpp:42-94 | a session receiving valid updates aggregates each in order, replies with the global model after each, and carries on with what follows |
| Averaging.RunClosed | LSVM/server_updated.cpp:47-51 | a closed stream ends the session at once and changes nothing |
| Averaging.FreshSessionThenClose | LSVM/server_updated.cpp:42-94 | a client that sends valid updates to a fresh server and closes leaves it at the mean of its updates, having been sent the running mean after each |
| Averaging.DisconnectMidPayload | LSVM/server_updated.cpp:69-79 | a client that disconnects mid-payload leaves the server with exactly the updates it completed, and the broken update aggregates nothing |
| Averaging.RunConsistent | LSVM/server_updated.cpp:42-94 | a session, however it ends, leaves the globals consistent |
| Averaging.Aggregate | LSVM/server_updated.cpp:20-35 | one aggregate counts one more client, gives the total the update's length and keeps global = total / client_count (its partner AggregateConsistent and MeanOfAllUpdates say the global model is the mean of every update) |
| Averaging.Run | LSVM/server_updated.cpp:42-94 | a session never lowers the client count (RunConsistent: it keeps global = total / client_count; SessionOfUpdates gives its exact output) |
| TempServer.Server.constructor | temp/server.cpp:12-14 | the globals start empty with no clients |
| TempServer.Server.AggregateModel | temp/server.cpp:18-24 | the lazy zero init, the addition, the client count and the running mean, as `Averaging.Aggregate`, keeping the invariant |
| TempServer.Server.HandleClient | temp/server.cpp:26-58 | rounds of (batch_size, vector_size) header with the 10^9 cap, payload reads of at most 30, aggregate and reply, until the stream ends, the size is refused or the payload breaks off, as `Averaging.Run` |
| LsvmServerUpdated.Server.constructor | LSVM/server_updated.cpp:13-15 | the globals start empty with no clients |
| LsvmServerUpdated.Server.AggregateModel | LSVM/server_updated.cpp:20-35 | lazy zero init, addition, one more client and the running mean, keeping the invariant |
| LsvmServerUpdated.Server.HandleClient | LSVM/server_updated.cpp:37-99 | rounds of size-only header with the 10^7 cap, payload reads of at most 100, aggregate and reply, as `Averaging.Run` |
| LogisticServerUpdated.AggregateConsistent | Logistic_Regression/server_updated.cpp:21-37 | `aggregate_model` leaves the global model equal to the running mean when that is finite and to zeros otherwise, and the total has the update's length |
| LogisticServerUpdated.AggregateAllTotals | Logistic_Regression/server_updated.cpp:24-37 | whatever the finiteness test says, the count grows by one per update and the total holds every update (from zeros on the first client), and the global model stays consistent |
| LogisticServerUpdated.AggregateAllCount | Logistic_Regression/server_updated.cpp:30 | each aggregate counts exactly one client |
| LogisticServerUpdated.AggregateAllTotal | Logistic_Regression/server_updated.cpp:24-29 | the total restarts from zeros when there are no clients and then accumulates every update |
| LogisticServerUpdated.AggregateAllConsistent | Logistic_Regression/server_updated.cpp:32-37 | after any non-empty run of aggregates the global model is the mean, or zeros when the mean is not finite |
| LogisticServerUpdated.MeanOfAllUpdates | Logistic_Regression/server_updated.cpp:21-37 | from a fresh server with a finite mean, the global model is the mean of every update, the total their sum |
| LogisticServerUpdated.Round | Logistic_Regression/server_updated.cpp:59-79 | a round reads exactly the announced number of doubles, aggregates them and replies; a round that goes on consumes input |
| LogisticServerUpdated.RefusedSize | Logistic_Regression/server_updated.cpp:53-57 | a size outside 1..10^7 ends the session before anything is aggregated or written |
| LogisticServerUpdated.RoundsOfUpdates | Logistic_Regression/server_updated.cpp:59-82 | rounds receiving payloads of the announced size aggregate each in order and reply after each |
| LogisticServerUpdated.SessionOfUpdates | Logistic_Regression/server_updated.cpp:44-82 | a client that announces a valid size, sends its updates and closes leaves every update aggregated in order and has been sent the global model after each |
| LogisticServerUpdated.Server.constructor | Logistic_Regression/server_updated.cpp:14-16 | the globals start empty with no clients |
| LogisticServerUpdated.Server.AggregateModel | Logistic_Regression/server_updated.cpp:21-41 | reset on the first client, addition, one more client, running mean, zeroing of a non-finite mean; the new state is `Aggregate` of the old and keeps the invariant |
| LogisticServerUpdated.Server.HandleClient | Logistic_Regression/server_updated.cpp:44-87 | the size read once and checked against 10^7, then rounds of payload in reads of at most 100, aggregate and reply, as `Run` |
| LogisticServerUpdated.Aggregate | Logistic_Regression/server_updated.cpp:21-37 | one aggregate counts one more client, gives total and global the update's length, and the global model is total / client_count unless the finiteness guard reset it to zeros |
| LogisticServerUpdated.Rounds | Logistic_Regression/server_updated.cpp:59-82 | the rounds only append to what was written, never lower the client count, and end only on a failed payload read or an update of the wrong size |
| LogisticServerUpdated.Run | Logistic_Regression/server_updated.cpp:44-82 | a session never lowers the client count, and one whose size read fails or whose size is not positive writes nothing and changes nothing |
| GradientStep.ApplyConsistent | Logistic_Regression/server.cpp:21-42 | `apply_gradient_update` keeps the invariant: one recorded batch size per call, the gradient accumulator zero between calls, equal lengths once initialised |
| GradientStep.ApplyStep | Logistic_Regression/server.cpp:24-41 | one call appends the batch size, counts one more client, leaves the accumulator at zero and moves the weights by this batch's gradient alone: b·g / (sum of all sizes so far) when normalised, rate·b·g with a learning rate |
| GradientStep.LearningRateIgnoresHistory | Linear_Regression/server.cpp:34-36 | with a learning rate the recorded batch sizes do not affect the new weights (`total_data_points` is computed but unused) |
| GradientStep.FirstNormalisedStep | Logistic_Regression/server.cpp:24-35 | the first normalised step of a fresh server sets the weights to minus the gradient, whatever the non-zero batch size |
| GradientStep.SteppableNext | Logistic_Regression/server.cpp:21-42 | a request list that fits the weights still fits them after its first step |
| GradientStep.Round | Logistic_Regression/server.cpp:49-76 | a round reads (batch_size, vector_size), the gradient, takes one step and replies; a round that goes on consumes input |
| GradientStep.RunOfRequest | Logistic_Regression/server.cpp:49-76 | a framed request is read, stepped and answered in one round |
| GradientStep.SessionOfRequests | Logistic_Regression/server.cpp:45-80 | a session receiving well-formed requests takes one step per request in order, replying with the full weights after each |
| GradientStep.RunConsistent | Logistic_Regression/server.cpp:45-80 | a session, however it ends, leaves the globals consistent |
| GradientStep.Apply | Logistic_Regression/server.cpp:21-42 | one step counts one more client and records one more batch size, restarts the total at zeros and gives the global model the gradient's length (ApplyStep gives the recorded sizes and the new weights) |
| GradientStep.Run | Logistic_Regression/server.cpp:45-80 | a session never lowers the client count (RunConsistent: it keeps the server's invariant; SessionOfRequests gives its exact output) |
| LogisticServer.Server.constructor | Logistic_Regression/server.cpp:13-16 | the globals start empty, with no clients and no recorded sizes |
| LogisticServer.Server.ApplyGradientUpdate | Logistic_Regression/server.cpp:21-42 | reset on `client_count == 0`, normalised step; the new state is `Apply` of the old, the size list grows by `batch_size`, and the invariant holds |
| LogisticServer.Server.HandleClient | Logistic_Regression/server.cpp:45-83 | rounds of header with the 10^7 cap, reads of at most 100, step and reply, as `GradientStep.Run` |
| LsvmServer.Server.constructor | LSVM/server.cpp:15-18 | the globals start empty, with no clients and no recorded sizes |
| LsvmServer.Server.ApplyGradientUpdate | LSVM/server.cpp:22-39 | initialisation on empty weights, normalised step; the new state is `Apply` of the old, the size list grows by `batch_size`, and the invariant holds |
| LsvmServer.Server.HandleClient | LSVM/server.cpp:41-71 | rounds of header with the 10^7 cap, reads of at most 100, step and reply, as `GradientStep.Run` |
| LinearServer.Server.constructor | Linear_Regression/server.cpp:14-17 | the globals start empty, with no clients and no recorded sizes |
| LinearServer.Server.ApplyGradientUpdate | Linear_Regression/server.cpp:20-41 | reset on `client_count == 0`, step of 0.005 times the accumulated gradient, unnormalised; the new state is `Apply` of the old, the size list grows, and the invariant holds |
| LinearServer.Server.HandleClient | Linear_Regression/server.cpp:43-76 | rounds of header with the 10^7 cap, reads of at most 100, step and reply, as `GradientStep.Run` |
| Matrices.AreaProduct | KMeans/server.cpp:21 | the entry count of a rows×cols matrix is rows·cols |
| Matrices.Row | KMeans/client.cpp:50 | `m.row(i)` has `cols` entries, entry j being m(i, j) |
| Matrices.RowsOf | KMeans/client.cpp:49-52 | the matrix as its list of rows, row i being `m.row(i)` |
| Matrices.FromRows | KMeans/client.cpp:55-66 | the column-major matrix built from rows of length c has shape |rows|×c and entry (i, j) equal to row i's entry j |
| Matrices.RowsOfFromRows | KMeans/client.cpp:55-68 | building a matrix from rows and reading its rows back gives the rows |
| Matrices.FromRowsOfRows | KMeans/client.cpp:55-68 | every well-shaped matrix is the column-major layout of its rows |
| Matrices.ReadMatrix | KMeans/server.cpp:16-22 | `receive_matrix` yields a well-shaped matrix (rows·cols entries) and consumes input |
| Matrices.MatrixFrame | KMeans/server.cpp:24-29 | `send_matrix` writes two dimension ints and then every entry |
| Matrices.ReadMatrixFrame | KMeans/server.cpp:16-29 | `receive_matrix` reads back exactly the matrix `send_matrix` wrote, and leaves what follows unread |
| KMeansServer.Merge | KMeans/server.cpp:38-43 | the first matrix overall is adopted, later ones added; the sum keeps the matrix's shape and the count grows by one |
| KMeansServer.Average | KMeans/server.cpp:45 | the reply has the shape of the running sum |
| KMeansServer.MergeAll | KMeans/server.cpp:33-49 | merging matrices of one shape keeps that shape and counts each one |
| KMeansServer.MergeAllSum | KMeans/server.cpp:41 | after merging more matrices into a non-empty sum, the sum has grown by their element-wise total |
| KMeansServer.MeanOfAllMatrices | KMeans/server.cpp:38-45 | from a fresh server, the sum is the element-wise total of every matrix received, the count their number, and the reply their element-wise mean |
| KMeansServer.Round | KMeans/server.cpp:34-46 | a round receives a matrix, merges it and replies with the average; the state stays consistent and input is consumed |
| KMeansServer.SessionOfMatrices | KMeans/server.cpp:31-53 | a session receiving matrices of one shape, no more than it has rounds for, merges them in order and replies with the running average after each |
| KMeansServer.SessionEndsAfterLastRound | KMeans/server.cpp:33 | after its 100 rounds a session ends whatever else the client sends |
| KMeansServer.Server.constructor | KMeans/server.cpp:13-14 | no running sum and no clients |
| KMeansServer.Server.Aggregate | KMeans/server.cpp:37-45 | the locked block: the new state is `Merge` of the old, and the returned matrix is the average of the new sum |
| KMeansServer.Server.HandleClient | KMeans/server.cpp:31-53 | up to 100 rounds of receive, merge and reply, ending early when a read fails or a shape does not fit, as `Run` |
| KMeansServer.Run | KMeans/server.cpp:31-53 | `handle_client` keeps the server consistent, only appends to what it writes and never lowers the count of merged matrices |
| KMeansClient.SquaredDistance | KMeans/client.cpp:51 | a squared distance is never negative |
| KMeansClient.NearestAmongIsNearest | KMeans/client.cpp:51-52 | the search over the first n centroids returns the first index at minimal distance |
| KMeansClient.NearestIsFirstMinimum | KMeans/client.cpp:51-52 | a point's label is the first centroid at minimal squared distance, as `minCoeff` reports it |
| KMeansClient.NearestCentroid | KMeans/client.cpp:50-52 | the distance scan returns the first nearest centroid |
| KMeansClient.ClusterCentroid | KMeans/client.cpp:63-66 | the new centroid of cluster j has the data's width |
| KMeansClient.Labels | KMeans/client.cpp:49-53 | one label per point, each the point's nearest centroid |
| KMeansClient.Step | KMeans/client.cpp:44-69 | the result has one row per centroid, each of the data's width |
| KMeansClient.KMeansSingleIter | KMeans/client.cpp:44-69 | `kmeans_single_iter` returns, for every cluster, the mean of the points nearest to it, or zeros for a cluster with no points |
| KMeansClient.AssignLabels | KMeans/client.cpp:49-53 | the first loop labels every point with its nearest centroid |
| KMeansClient.AccumulateClusters | KMeans/client.cpp:55-61 | the second loop leaves, for every cluster, the element-wise sum of its points and their number |
| KMeansClient.MembersLength | KMeans/client.cpp:58-61 | every member of a cluster has the data's width |
| KMeansClient.CountsPartition | KMeans/client.cpp:56-61 | when all labels are below k, the cluster counts add up to the number of points: each point is counted once |
| KMeansClient.LabelsBelowClusters | KMeans/client.cpp:49-61 | the clusters of one iteration hold every point exactly once |
| KMeansClient.InitializeCentroids | KMeans/client.cpp:29-41 | the k initial centroids are the data rows at the first k shuffled indices, which are distinct |
| KMeansClient.LocalData | KMeans/client.cpp:97-101 | row i of the local data is (features[i], labels[i]) |
| KMeansClient.Nearest | KMeans/client.cpp:50-52 | the label of a point names one of the centroids (NearestIsFirstMinimum: the first one at minimal distance) |
| Moments.DeviationExpand | Naive_Bayes/client.cpp:42 | the sum of squared deviations from m is Q - 2mS + n·m² for a list of n values with sum S and sum of squares Q |
| Moments.M2IsDeviation | Naive_Bayes/client.cpp:42 | the expanded form Q - n·mean² is the sum of squared deviations from the mean |
| Moments.PooledMean | Naive_Bayes/server.cpp:29-30 | the mean of a concatenation is the size-weighted mean of the parts' means |
| Moments.PooledDeviation | Naive_Bayes/server.cpp:33-37 | the pairwise combination of Chan, Golub and LeVeque: the deviation sum of a concatenation is the parts' deviation sums plus a·b·(mean_b - mean_a)² / (a + b) |
| Moments.PooledSummary | Naive_Bayes/server.cpp:33-37 | the same identity stated over the parts' sizes, sums and sums of squares |
| Moments.Column | Naive_Bayes/client.cpp:41-42 | feature k of every row, in row order, one entry per row |
| NaiveBayesServer.Init | Naive_Bayes/server.cpp:59-65 | the first batch's tables: num_classes entries of zero means, unit variances, zero priors and zero counts, with priors equal to counts |
| NaiveBayesServer.Truncate | Naive_Bayes/server.cpp:78 | `static_cast<int>` truncates toward zero: the result is within one of x, on x's side of zero |
| NaiveBayesServer.TruncateInt | Naive_Bayes/server.cpp:78 | truncating a whole number gives it back |
| NaiveBayesServer.Merge | Naive_Bayes/server.cpp:17-43 | `aggregate_statistics`: only class c changes; its count becomes count + b and its prior that same total; an empty class adopts the batch mean and variance verbatim; priors equal counts before implies after |
| NaiveBayesServer.MergeMeans | Naive_Bayes/server.cpp:29-30 | the merged mean vector has the batch's length |
| NaiveBayesServer.MergeVariances | Naive_Bayes/server.cpp:33-39 | the merged variance vector has the batch's length |
| NaiveBayesServer.MergedMeanIsWeighted | Naive_Bayes/server.cpp:29-30 | the mean update old + b·(batch - old)/(a + b) equals the count-weighted average (a·old + b·batch)/(a + b) |
| NaiveBayesServer.MergedMeanIsPooled | Naive_Bayes/server.cpp:29-30 | on one feature, merging the means of two lists gives the mean of their concatenation |
| NaiveBayesServer.MergedVarianceIsPooled | Naive_Bayes/server.cpp:33-39 | on one feature, merging two sample variances gives the sample variance of the concatenation |
| NaiveBayesServer.MergeIsPooled | Naive_Bayes/server.cpp:17-43 | merging the sample summary of rows ys into a class that summarises rows xs (or is empty) leaves the class summarising xs + ys, with count |xs| + |ys| |
| NaiveBayesServer.EmptyBatchShrinksVariance | Naive_Bayes/server.cpp:26-39 | a batch with no row of the class (zero means, unit variances, size 0) keeps the means but lowers every variance of a class of a >= 2 rows by 1/(a - 1) |
| NaiveBayesServer.PopulationInputsMispooled | Naive_Bayes/server.cpp:33-37 | the rows {0, 2} then {4}, sent as population variances 1 and 0, merge to 3.5, which is neither the population variance 8/3 nor the sample variance 4 of {0, 2, 4} |
| NaiveBayesServer.MergeCorrected | Naive_Bayes/server.cpp:17-43 | the intended merge: an empty batch leaves the table unchanged, only class c changes, the count grows by b and priors stay equal to counts |
| NaiveBayesServer.PooledVarianceIsPooled | Naive_Bayes/server.cpp:33-39 | on one feature, the corrected update of two population variances is the population variance of the concatenation |
| NaiveBayesServer.MergeCorrectedIsPooled | Naive_Bayes/server.cpp:17-43 | with the corrected merge, a class summarising rows xs (or empty) that receives the population summary of rows ys (or an empty batch) summarises xs + ys |
| NaiveBayesServer.ReadBatchHeader | Naive_Bayes/server.cpp:53-55 | the batch header is three ints: total_samples, num_classes, num_features |
| NaiveBayesServer.ReadBatchHeaderOf | Naive_Bayes/server.cpp:53-55 | a framed batch header is read back unchanged |
| NaiveBayesServer.ReadClassStats | Naive_Bayes/server.cpp:73-75 | a class frame is a prior, then num_features means, then num_features variances |
| NaiveBayesServer.ReadClassStatsOf | Naive_Bayes/server.cpp:73-75 | a framed class's prior, means and variances are read back unchanged |
| NaiveBayesServer.Prepare | Naive_Bayes/server.cpp:59-65 | the tables are initialised only on the first batch (when empty) and otherwise left as they are, never resized |
| NaiveBayesServer.ReadClasses | Naive_Bayes/server.cpp:67-80 | the class loop keeps the tables valid and their size, leaves classes before c alone, merges each class read with its batch size `prior * total_samples`, and keeps the merges done before a failure |
| NaiveBayesServer.Round | Naive_Bayes/server.cpp:47-87 | a batch keeps the tables valid and, once initialised, their size; a round that goes on consumes input |
| NaiveBayesServer.Server.constructor | Naive_Bayes/server.cpp:11-14 | the four tables start empty |
| NaiveBayesServer.Server.AggregateStatistics | Naive_Bayes/server.cpp:17-43 | the new tables are `Merge` of the old, and priors stay equal to counts |
| NaiveBayesServer.Server.ProcessBatches | Naive_Bayes/server.cpp:45-96 | batch after batch of header, first-time init, class loop and reply until the stream fails, as `Run` |
| NaiveBayesServer.Server.MergeClasses | Naive_Bayes/server.cpp:67-80 | the class loop reads and merges class after class, as `ReadClasses` |
| NaiveBayesServer.Server.SendReply | Naive_Bayes/server.cpp:82-87 | the reply is, per class in order, its means, its variances and its prior |
| NaiveBayesServer.Run | Naive_Bayes/server.cpp:45-96 | the session keeps the class table valid, only appends to what it writes, and once the table is set up keeps its number of classes |
| NaiveBayesClient.Indices | Naive_Bayes/client.cpp:28-33 | every listed position is a valid row of the batch |
| NaiveBayesClient.IndicesExact | Naive_Bayes/client.cpp:28-33 | a position is listed exactly when its label equals the class, and the positions are strictly increasing |
| NaiveBayesClient.ClassRows | Naive_Bayes/client.cpp:36-39 | the class's rows are the batch rows at the listed positions, in order, one per position, each of the feature width |
| NaiveBayesClient.SquaredDeviations | Naive_Bayes/client.cpp:42 | one row of squared deviations per class row, each of the feature width |
| NaiveBayesClient.ColumnVariances | Naive_Bayes/client.cpp:42 | one variance per feature |
| NaiveBayesClient.ClassStatsOf | Naive_Bayes/client.cpp:35-48 | a class's means and variances always have one entry per feature, present or absent |
| NaiveBayesClient.Statistics | Naive_Bayes/client.cpp:23-49 | one entry per class, each with means and variances of the feature width |
| NaiveBayesClient.MeanIsColumnMean | Naive_Bayes/client.cpp:41 | each sent mean is the arithmetic mean of that feature's column over the class rows |
| NaiveBayesClient.VarianceIsColumnVariance | Naive_Bayes/client.cpp:42 | each sent variance is the population variance (divided by n, not n - 1) of that feature's column |
| NaiveBayesClient.PriorRecoversCount | Naive_Bayes/client.cpp:43 | the server's `static_cast<int>(prior * total_samples)` gives back the class's row count from the prior |
| NaiveBayesClient.ClassStatsSummarise | Naive_Bayes/client.cpp:35-43 | for a class present in the batch, the sent means and variances are the population summary of its rows, and the prior decodes to its row count |
| NaiveBayesClient.ClassIndices | Naive_Bayes/client.cpp:28-33 | the scan loop yields exactly the positions labelled with the class, in order |
| NaiveBayesClient.GatherRows | Naive_Bayes/client.cpp:36-39 | the copy loop puts batch row `class_indices[i]` at row i of the class data |
| NaiveBayesClient.ComputeClassStatistics | Naive_Bayes/client.cpp:21-52 | the class loop computes, for every class, the statistics the column-wise definitions give: zero means, unit variances and zero prior for an absent class |
| NaiveBayesClient.BatchSlice | Naive_Bayes/client.cpp:96-100 | every batch holds between 1 and 100 rows |
| NaiveBayesClient.BatchesAreChunks | Naive_Bayes/client.cpp:88-100 | the batch count is the number of 100-row chunks, batch b is chunk b, and the batches together are the local data in order |
| NaiveBayesClient.ReadClassReply | Naive_Bayes/client.cpp:120-122 | a class read from the reply has means and variances of the feature width |
| NaiveBayesClient.ReadReply | Naive_Bayes/client.cpp:116-123 | a reply read in full holds one entry per class |
| NaiveBayesClient.ReadReplyFails | Naive_Bayes/client.cpp:116-123 | if any class of the reply fails to arrive, the whole reply fails |
| NaiveBayesClient.Initial | Naive_Bayes/client.cpp:89-91 | the client's tables start with one entry per class |
| NaiveBayesClient.Requests | Naive_Bayes/client.cpp:95-114 | there is one request per batch of the local data |
| NaiveBayesClient.SessionAdvance | Naive_Bayes/client.cpp:95-123 | an answered batch adds its request to the output, replaces the stored table with the reply, and goes on with the next batch on the rest of the input |
| NaiveBayesClient.SessionHalts | Naive_Bayes/client.cpp:93-123 | a batch whose reply does not arrive ends the session after its request was written, keeping the previous table and reporting failure |
| NaiveBayesClient.SessionNextEpoch | Naive_Bayes/client.cpp:94-95 | after the last batch of an epoch, the next epoch starts again at batch 0 |
| NaiveBayesClient.WriteClasses | Naive_Bayes/client.cpp:110-114 | the write loop sends, class by class, the prior, then the means, then the variances |
| NaiveBayesClient.ReceiveClass | Naive_Bayes/client.cpp:120-122 | the three reads of one class give means, variances and prior in that order, or a failure |
| NaiveBayesClient.ReceiveUpdates | Naive_Bayes/client.cpp:116-123 | the read loop succeeds exactly when the whole reply arrives, and then it holds what the reply says, with the rest of the input left over |
| NaiveBayesClient.RequestAt | Naive_Bayes/client.cpp:95-114 | request i is the header and class statistics of batch i |
| NaiveBayesClient.BuildRequest | Naive_Bayes/client.cpp:96-114 | the slicing, statistics and writes for one batch produce that batch's request |
| NaiveBayesClient.ExchangeBatch | Naive_Bayes/client.cpp:96-123 | one batch writes its request, and its reply is accepted exactly when it arrives in full |
| NaiveBayesClient.SendEpoch | Naive_Bayes/client.cpp:95-132 | the batch loop of one epoch either leaves the session at the start of the next epoch, or ends it with the output written so far and a failure |
| NaiveBayesClient.SendBatchesAndReceiveUpdates | Naive_Bayes/client.cpp:86-135 | the epoch and batch loops write exactly the session's output and report completion exactly when every reply arrived; on completion the stored table is the last reply |
| NaiveBayesClient.MergeAll | Naive_Bayes/server.cpp:67-80 | merging keeps the server's table well formed and of the same size; when every class merges, the input after the classes is left over and the request had no more classes than the table |
| NaiveBayesClient.ServerReadsClasses | Naive_Bayes/server.cpp:67-80 | the server reads back every class the client wrote, in order, and nothing more |
| NaiveBayesClient.ServerAnswersRequest | Naive_Bayes/server.cpp:47-87 | for a well-formed request the server accepts the header, merges the classes, and replies with its first `num_classes` classes, or stops where a merge halts |
| NaiveBayesClient.TableStats | Naive_Bayes/server.cpp:82-87 | the client's view of the reply holds one entry per class |
| NaiveBayesClient.ReadClassReplyOf | Naive_Bayes/client.cpp:120-122 | one class written as means, variances, prior is read back unchanged |
| NaiveBayesClient.ClientReadsReply | Naive_Bayes/client.cpp:116-123 | the client reads the server's reply (Naive_Bayes/server.cpp:82-87) back as the server's table, class by class |
| NaiveBayesClient.ClientBatchPooled | Naive_Bayes/client.cpp:35-43 | with the corrected merge, a class that summarises rows xs and receives one batch's statistics then summarises xs followed by that batch's rows of the class |
| NaiveBayesClient.Session | Naive_Bayes/client.cpp:93-123 | the statistics the client ends with are either the ones it started with or a full reply of one entry per class |
| Stumps.Vote | Adaboost/server.cpp:47 | a stump votes +1 exactly when the feature value is at or below the threshold, and -1 otherwise |
| Stumps.TruncateToInt | Adaboost/server.cpp:26 | `static_cast<int>` truncates toward zero: the integer lies within one of the value, on the side of zero |
| Stumps.Serialized | Adaboost/server.cpp:34-42 | three values per learner |
| Stumps.SerializedAt | Adaboost/server.cpp:36-40 | values 3k, 3k + 1 and 3k + 2 are learner k's feature index, threshold and weight |
| Stumps.LearnerAt | Adaboost/server.cpp:25-28 | the learner read at k takes its threshold and weight from values 3k + 1 and 3k + 2 |
| Stumps.Learners | Adaboost/server.cpp:22-32 | decoding n learners gives n of them, learner k read from triple k |
| Stumps.RoundTrip | Adaboost/server.cpp:22-42 | decoding the serialisation of a list of learners gives back the list |
| Stumps.RoundTripWithTrailer | Adaboost/client.cpp:68-78 | decoding whole triples from a buffer that holds a list's serialisation followed by one or two extra values gives back the list |
| Stumps.SerializeLearners | Adaboost/client.cpp:58-66 | the push_back loop writes the serialisation of the learners |
| AdaBoostServer.DeserializeLearners | Adaboost/server.cpp:22-32 | the loop decodes the first `num_learners` triples, and none when the count is negative |
| AdaBoostServer.InsertSorted | Adaboost/server.cpp:83-85 | inserting a learner into a list sorted by non-increasing weight keeps it sorted and adds exactly that learner |
| AdaBoostServer.SortedCons | Adaboost/server.cpp:83-85 | a learner weighing at least as much as the head of a sorted list can go in front of it |
| AdaBoostServer.SortByAlpha | Adaboost/server.cpp:83-85 | the sort yields a permutation of the learners in non-increasing weight |
| AdaBoostServer.TopLearners | Adaboost/server.cpp:78-88 | for any sorted permutation, the reply holds min(20, n) learners, sorted, taken from the list, and every learner left out weighs no more than every learner kept |
| AdaBoostServer.PrefixDominates | Adaboost/server.cpp:87-88 | in a sorted list nothing after position n outweighs anything before it |
| AdaBoostServer.PredictAdaboost | Adaboost/server.cpp:44-51 | the prediction is +1 exactly when the weighted vote is non-negative, and -1 otherwise |
| AdaBoostServer.ScoreAppend | Adaboost/server.cpp:46-49 | the vote of two lists together is the sum of their votes |
| AdaBoostServer.ScorePermutation | Adaboost/server.cpp:46-49 | the vote, and so the prediction, does not depend on the order of the learners |
| AdaBoostServer.ScoreLast | Adaboost/server.cpp:46-49 | the vote splits off the last learner's term |
| AdaBoostServer.InRangePermutation | Adaboost/server.cpp:47 | reordering the learners keeps every feature index within the sample |
| AdaBoostServer.ScoreRemove | Adaboost/server.cpp:46-49 | taking learner i out of the list takes its term out of the vote |
| AdaBoostServer.Round | Adaboost/server.cpp:57-93 | a completed round consumes input and only appends to the aggregated learners, keeping every earlier learner in place |
| AdaBoostServer.Run | Adaboost/server.cpp:53-101 | over a whole session the aggregated list only grows at its end |
| AdaBoostServer.Reply | Adaboost/server.cpp:78-93 | the reply is the value count and values of the top min(20, n) learners of the sorted list |
| AdaBoostServer.Server.constructor | Adaboost/server.cpp:20 | the aggregated list starts empty |
| AdaBoostServer.Server.HandleClient | Adaboost/server.cpp:53-101 | the session's effect on the global list and its output are those of the round-by-round session |
| AdaBoostServer.Score | Adaboost/server.cpp:46-49 | the weighted vote lies between minus and plus the total learner weight, since each stump votes +1 or -1 |
| AdaBoostClient.Miss | Adaboost/client.cpp:30-31 | a sample counts as a miss (1) or not (0) |
| AdaBoostClient.ErrorBounds | Adaboost/client.cpp:31 | with non-negative weights, a stump's weighted error lies between 0 and the total weight |
| AdaBoostClient.FirstMinimumUnique | Adaboost/client.cpp:27-38 | the first candidate of least error is unique, so the search has exactly one outcome |
| AdaBoostClient.TrainWeakLearner | Adaboost/client.cpp:21-41 | the search returns the first candidate, in feature-then-sample order, of least weighted error, with threshold that sample's value and weight alphaOf(error); if no candidate beats the starting maximum, it returns learner {0, 0} |
| AdaBoostClient.NextFeature | Adaboost/client.cpp:27-28 | finishing every sample of a feature is finishing every candidate before the next feature |
| AdaBoostClient.LastFeature | Adaboost/client.cpp:27-38 | after the last feature the kept error is no more than any candidate's error, and a kept candidate is the first minimum |
| AdaBoostClient.Uniform | Adaboost/client.cpp:45 | one starting weight per sample |
| AdaBoostClient.Reweighted | Adaboost/client.cpp:51-52 | each weight is multiplied by exp(-alpha · label · vote) of its sample |
| AdaBoostClient.Normalized | Adaboost/client.cpp:53 | one normalised weight per weight |
| AdaBoostClient.SumOnes | Adaboost/client.cpp:45 | n ones sum to n |
| AdaBoostClient.SumPositive | Adaboost/client.cpp:53 | positive weights have a non-negative sum, positive when there are any |
| AdaBoostClient.NormalizedIsDistribution | Adaboost/client.cpp:53 | dividing positive weights by their sum gives a distribution: positive weights that sum to 1 |
| AdaBoostClient.UniformIsDistribution | Adaboost/client.cpp:45 | the starting weights 1/n form a distribution |
| AdaBoostClient.ReweightedIsDistribution | Adaboost/client.cpp:51-53 | with a positive exponential, each round's reweighting has a positive sum and its normalisation is again a distribution |
| AdaBoostClient.TrainedUnique | Adaboost/client.cpp:43-56 | training is deterministic: two trainings of the same length on the same data give the same learners and weights |
| AdaBoostClient.SameRounds | Adaboost/client.cpp:47-54 | two trainings agree on the weights before every round |
| AdaBoostClient.SameBoost | Adaboost/client.cpp:48-53 | from the same weights a round picks the same learner and gives the same next weights |
| AdaBoostClient.SamePick | Adaboost/client.cpp:48 | for given weights the search can pick only one stump |
| AdaBoostClient.BoostingRound | Adaboost/client.cpp:48 | when the weights are a distribution, the search returns the first minimum with its weight, never the fallback learner |
| AdaBoostClient.TrainAdaboost | Adaboost/client.cpp:43-56 | the learners are those of `num_learners` boosting rounds from uniform weights, and every weight vector along the way is a distribution |
| AdaBoostClient.TrainedSnoc | Adaboost/client.cpp:47-54 | one more round extends a training by its learner and its new weights, keeping every weight vector a distribution |
| AdaBoostClient.ReadModel | Adaboost/client.cpp:114-119 | reading a model consumes input |
| AdaBoostClient.DeserializeLearners | Adaboost/client.cpp:68-78 | the client's loop decodes as many whole triples as the buffer holds and ignores any remainder |
| AdaBoostClient.ReceiveModel | Adaboost/client.cpp:114-119 | the two reads and the decoding give the model the reply holds, or a failure |
| AdaBoostClient.RunClient | Adaboost/client.cpp:99-123 | every epoch sends the same learners, those of two boosting rounds on the local data, and the output and the models read are those of the epoch-by-epoch session |
| AdaBoostClient.SessionStep | Adaboost/client.cpp:99-121 | one epoch writes the request, then either stops on a failed read or goes on with the model appended and one epoch fewer |
| AdaBoostClient.ServerAcceptsRequest | Adaboost/server.cpp:61-93 | the server decodes the client's request (Adaboost/client.cpp:107-109) into the very learners the client trained, appends them, and answers with the top of the list |
| AdaBoostClient.ClientReadsReply | Adaboost/client.cpp:114-119 | the client decodes the server's reply (Adaboost/server.cpp:92-93) into exactly the learners the server sent |
| AdaBoostClient.WeightedError | Adaboost/client.cpp:29-31 | the weighted error is zero when every sample of non-zero weight is classified correctly (ErrorBounds bounds it by 0 and the total weight) |
| AdaBoostClient.Session | Adaboost/client.cpp:99-121 | the epoch loop gains at most one model per epoch, and completes exactly when it read a model for every epoch |
| ForestFrames.TreesFrameSnoc | RF/server_updated.cpp:43-47 | writing one more tree appends that tree's frame to the frames written so far |
| ForestFrames.ReadTree | RF/server.cpp:34-38 | reading a tree consumes input |
| ForestFrames.ReadTrees | RF/server.cpp:33-42 | reading n more trees after those already read yields exactly n more |
| ForestFrames.ReadForest | RF/server.cpp:29-42 | a forest read in full holds as many trees as the count at its head |
| ForestFrames.ReadTreesOf | RF/server.cpp:33-42 | the frames of a list of trees are read back as that list, with what follows left over |
| ForestFrames.ReadTreesCons | RF/server.cpp:33-42 | reading one tree frame, then the frames of the rest, reads the whole list |
| ForestFrames.ReadTreesStep | RF/server.cpp:33-42 | after one tree is read, the remaining reads go on from the rest of the input |
| ForestFrames.TreesFrameCons | RF/server_updated.cpp:43-47 | the frames of a list of trees are the first tree's frame followed by the frames of the rest |
| ForestFrames.ReadTreeOf | RF/server.cpp:34-38 | a tree frame is read back as the same tree, whatever follows it |
| ForestFrames.ForestRoundTrip | RF/server_updated.cpp:40-47 | a forest written by `send_global_forest` is read back (RF/client_updated.cpp:1-15) as the same trees, whatever follows |
| ForestFrames.ReceiveForest | RF/server.cpp:29-42 | the count read and the tree loop give the forest the input holds, or a failure |
| ForestFrames.SendForest | RF/server_updated.cpp:40-47 | the write loop sends the count, then each tree's size and values, in order |
| RfServer.Server.constructor | RF/server.cpp:21 | the list of aggregated forests starts empty |
| RfServer.Server.HandleClient | RF/server.cpp:27-52 | a connection that delivers a whole forest appends exactly that forest; otherwise the list is unchanged |
| RfServerUpdated.FlattenOrder | RF/server_updated.cpp:32-38 | tree j of forest i sits in the flattened list right after the trees of the forests before it |
| RfServerUpdated.FlattenForests | RF/server_updated.cpp:31-38 | the nested loops list every tree of every forest, forest by forest, in order |
| RfServerUpdated.Server.constructor | RF/server_updated.cpp:21 | the list of aggregated forests starts empty |
| RfServerUpdated.Server.SendGlobalForest | RF/server_updated.cpp:27-50 | the reply is the forest frame of all aggregated trees, flattened in order |
| RfServerUpdated.Server.HandleClient | RF/server_updated.cpp:52-79 | a failed read aggregates nothing and sends nothing; a whole forest is aggregated, and the reply is the frame of every aggregated tree |
| RfClientUpdated.RandomForest.constructor | RF/client_updated.cpp:40 | a forest holds the trees it is built with |
| RfClientUpdated.ReceiveGlobalForest | RF/client_updated.cpp:1-18 | the read gives the forest the reply holds, and on success the global forest's trees are those trees, as many as the count read |
| RfClientUpdated.IntegrateGlobalModel | RF/client_updated.cpp:20-23 | the local forest becomes its own trees followed by the global ones, and the global forest is unchanged |
| RfClientUpdated.ReceiveAndIntegrate | RF/client_updated.cpp:40-43 | when the reply holds a whole forest the local forest gains exactly its trees at the end; otherwise it is unchanged |
| HingeCursor.HingeGradient | RF/client.cpp:49-51 | the gradient gains -y·x exactly when the margin y·(x·w) is below 1, and is unchanged otherwise |
| HingeCursor.Pass | RF/client.cpp:40-62 | training on a run of rows keeps the weights and gradient at the feature width |
| HingeCursor.PassStep | RF/client.cpp:46-56 | one row's hinge update and weight step keep the loop on track for the pass the call promises |
| HingeCursor.PassDone | RF/client.cpp:40-62 | a pass that reached its last row holds the promised weights |
| HingeCursor.Processed | RF/client.cpp:30-66 | a call keeps the weights at the feature width |
| HingeCursor.HingeUpdate | RF/client.cpp:49-53 | one sample updates the gradient by the hinge rule, then steps the weights by 0.01 times the gradient |
| HingeCursor.TrainCall | RF/client.cpp:30-66 | a call keeps the weights at the feature width |
| HingeCursor.TrainCallShape | RF/client.cpp:40-65 | a call reports the data exhausted exactly when fewer than 100 rows remain, and then sends nothing and leaves the cursor in place; otherwise it sends the new weights whole, in writes of 1 to 100 values, and moves the cursor by exactly 100 |
| HingeCursor.WholeBatch | RF/client.cpp:58 | inside one call, `processed_samples % TRAIN_BATCH_SIZE == 0` holds only at the 100th row, so the weights are sent once per call |
| HingeCursor.Trainer.constructor | RF/client.cpp:32 | the static cursor starts at row 0 |
| HingeCursor.Trainer.TrainIncrementally | RF/client.cpp:30-66 | the call's exhaustion flag, weights, writes and new cursor are those `TrainCall` gives from the old cursor |
| HingeCursor.Epochs | RF/client.cpp:93-99 | the epochs keep the weights at the feature width and never move the cursor back |
| HingeCursor.EpochsStep | LSVM/client_updated.cpp:89-100 | one epoch either ends the loop on exhaustion or goes on from the new cursor and weights with one epoch fewer |
| HingeCursor.BatchesLeft | RF/client.cpp:40-44 | the whole batches left from a cursor fit within the data |
| HingeCursor.BatchesLeftQuotient | RF/client.cpp:40-44 | the number of whole batches left is the rows left divided by 100 |
| HingeCursor.EpochsCursor | RF/client.cpp:93-99 | the cursor moves by 100 rows per epoch, for as many epochs as whole batches remain: the calls train on consecutive, disjoint blocks of rows |
| HingeCursor.RunRfClient | RF/client.cpp:88-99 | the client writes the size and the initial weights once, then at most three epochs of training, stopping at the first exhausted call |
| HingeCursor.RunLsvmClient | LSVM/client_updated.cpp:89-100 | the client writes the size before every call, for at most fifty epochs, stopping at the first exhausted call |
| LsvmClient.HingeSum | LSVM/client.cpp:22-31 | the running sum stays at the feature width |
| LsvmClient.SvmGradient | LSVM/client.cpp:21-35 | the batch gradient has the feature width |
| LsvmClient.Violations | LSVM/client.cpp:28 | the rows violating the margin, taken as y·x, number at most the rows scanned |
| LsvmClient.HingeSumOfViolations | LSVM/client.cpp:25-31 | the loop's sum is minus the sum of y·x over exactly the rows whose margin is below 1 |
| LsvmClient.NegateSnoc | LSVM/client.cpp:29 | subtracting y·x from a negated sum negates the sum with y·x added |
| LsvmClient.SvmGradientOfViolations | LSVM/client.cpp:21-35 | the gradient is minus the sum of y·x over the margin violators, divided by the whole batch size |
| LsvmClient.SatisfiedBatch | LSVM/client.cpp:21-35 | when every row of the batch has margin at least 1 the gradient is zero |
| LsvmClient.NoViolations | LSVM/client.cpp:28 | with every margin at least 1 no row is a violator |
| LsvmClient.HingeSumStep | LSVM/client.cpp:28-30 | one more row subtracts y·x exactly when its margin is below 1, and leaves the sum unchanged otherwise |
| LsvmClient.ComputeSvmGradient | LSVM/client.cpp:21-35 | the loop and the division compute the batch's hinge subgradient |
| LinearClient.ErrorTerm | Linear_Regression/client.cpp:60 | a row's error term has the feature width |
| LinearClient.GradientSum | Linear_Regression/client.cpp:55-61 | the running sum has the feature width |
| LinearClient.BatchGradientOf | Linear_Regression/client.cpp:52-63 | the batch gradient has the feature width |
| LinearClient.ErrorSum | Linear_Regression/client.cpp:60 | the summed error terms have the feature width |
| LinearClient.Regularisation | Linear_Regression/client.cpp:59-60 | the summed regularisation terms have the feature width |
| LinearClient.GradientSumSplit | Linear_Regression/client.cpp:55-61 | the loop's sum separates into the error terms and n copies of lambda·w |
| LinearClient.RegularisationAt | Linear_Regression/client.cpp:59-60 | each entry of the regularisation sum is n·(lambda·w_k) |
| LinearClient.Successor | Linear_Regression/client.cpp:60 | adding lambda·x to (n - 1) copies makes n copies |
| LinearClient.GradientOfBatch | Linear_Regression/client.cpp:52-63 | the batch gradient is the mean error term plus exactly lambda·w: the regularisation is added once per row and divided back out by the batch size |
| LinearClient.MeanOfShifted | Linear_Regression/client.cpp:63 | dividing error plus n·lambda·x by n gives the mean error plus lambda·x |
| LinearClient.ExactBatch | Linear_Regression/client.cpp:52-63 | when every prediction of the batch is exact, only the regularisation lambda·w is left |
| LinearClient.NoErrors | Linear_Regression/client.cpp:60 | with every residual zero the error terms sum to zero |
| LinearClient.BatchGradient | Linear_Regression/client.cpp:52-63 | the per-row loop and the division compute the batch gradient |
| LinearClient.SquareSign | Linear_Regression/client.cpp:21 | a square is non-negative, and zero exactly for zero |
| LinearClient.ZeroProduct | Linear_Regression/client.cpp:21 | a product is zero only when a factor is |
| LinearClient.SquaredErrorsZero | Linear_Regression/client.cpp:18-22 | the summed squared residuals are non-negative, and zero exactly when every residual is |
| LinearClient.MseZero | Linear_Regression/client.cpp:18-22 | the loss is never negative, and zero exactly when the weights predict every row exactly |
| LinearClient.Mse | Linear_Regression/client.cpp:18-22 | `compute_mse` is never negative (MseZero: it is zero exactly when every residual is zero) |
| LogisticClient.LogisticSum | Logistic_Regression/client.cpp:85-89 | the running sum has the feature width |
| LogisticClient.LogisticGradient | Logistic_Regression/client.cpp:83-92 | the batch gradient has the feature width |
| LogisticClient.ExactRowsAddNothing | Logistic_Regression/client.cpp:88 | rows whose probability equals their label add nothing to the sum |
| LogisticClient.ExactBatch | Logistic_Regression/client.cpp:83-92 | when every probability of the batch equals its label the gradient is zero |
| LogisticClient.LogisticSumStep | Logistic_Regression/client.cpp:88 | one more row adds x·(sigmoid(x·w) - y) to the sum |
| LogisticClient.BatchGradient | Logistic_Regression/client.cpp:83-92 | the per-row loop and the division compute the batch gradient |
| LogisticClient.Predict | Logistic_Regression/client.cpp:25-35 | the label is -1 exactly when the dot product is not finite, 1 exactly when it is finite with probability at least 0.5, and 0 otherwise |
| LogisticClient.PredictionsExact | Logistic_Regression/client.cpp:46-50 | exactly the valid predictions are reported, each once with its 1-based row number, in increasing row order |
| LogisticClient.PredictSamples | Logistic_Regression/client.cpp:37-51 | nothing is reported when the test width differs from the weights; otherwise the reports are those of every test row in order |
| LogisticClient.Predictions | Logistic_Regression/client.cpp:37-51 | at most one line per test row, each naming a row among the first n with class 0 or 1 (PredictionsExact: exactly the valid predictions, in row order) |
| BatchClient.Gradient | Logistic_Regression/client.cpp:83-92 | each client's batch gradient has the feature width |
| BatchClient.ComputeGradient | LSVM/client.cpp:70 | the client computes its own model's batch gradient |
| BatchClient.Range | Logistic_Regression/client.cpp:75-76 | `std::iota` lists the n row indices |
| BatchClient.RangeCount | Logistic_Regression/client.cpp:75-76 | every row index below n occurs exactly once in the starting list |
| BatchClient.EveryRowOnce | Logistic_Regression/client.cpp:75-82 | the batches, concatenated, are the shuffled list, so every row is trained on exactly once per epoch, in batches of 1 to the batch size |
| BatchClient.BatchIsChunk | Logistic_Regression/client.cpp:81-82 | the batch the loop takes at i = k·size is chunk k of the index list |
| BatchClient.Select | LSVM/client.cpp:65-68 | entry k of `batch_X` or `batch_y` is the row or label at the batch's k-th index |
| BatchClient.GatherBatch | LSVM/client.cpp:62-68 | the copy loop selects the batch's rows and labels in batch order |
| BatchClient.BatchRequest | Logistic_Regression/client.cpp:82-99 | each request carries a batch size from 1 to the training batch size and a gradient of the feature width |
| BatchClient.SessionRequests | Logistic_Regression/client.cpp:81-106 | the session keeps the weights' width and only appends requests, each of a valid batch size and the feature width |
| BatchClient.SessionCompletes | Logistic_Regression/client.cpp:81-106 | when every reply arrives the epoch completes with one request per batch |
| BatchClient.SuccessorTimes | Logistic_Regression/client.cpp:81 | (1 + a)·d is d + a·d |
| BatchClient.SessionStopsOnClosedInput | Logistic_Regression/client.cpp:102 | a connection that closes before the first reply is whole ends the epoch after one request, with the weights unchanged |
| BatchClient.WrittenSnoc | Logistic_Regression/client.cpp:95-99 | writing one more request appends its frame |
| BatchClient.SessionStep | Logistic_Regression/client.cpp:81-106 | one batch writes its request, then either stops on a failed read or goes on from the next batch with the weights read |
| BatchClient.SendBatch | Logistic_Regression/client.cpp:82-99 | gathering, the gradient and the writes give the batch's request frame: size, feature count, then the gradient |
| BatchClient.TrainAndSendBatches | Logistic_Regression/client.cpp:67-107 | the epoch loop writes exactly the session's requests, ends with the session's weights, and completes exactly when every reply arrived |
| BatchClient.ServerReadsClient | Logistic_Regression/server.cpp:45-83 | a gradient server that receives the client's writes takes one step per request, in order, and replies after each |
| BatchClient.Session | Logistic_Regression/client.cpp:81-106 | the weights keep their width, and the batch loop sends a request exactly when a batch is left (SessionRequests gives each request's shape) |
| ResumeCursor.Term | Linear_Regression/client_updated.cpp:62 | a row's gradient term has the feature width |
| ResumeCursor.Accumulated | Linear_Regression/client_updated.cpp:59-63 | the gradient sum over a run of rows has the feature width |
| ResumeCursor.AccumulatedStep | Logistic_Regression/client_updated.cpp:46-50 | one more row adds its term to the sum, computed with the weights held fixed |
| ResumeCursor.Cap | Linear_Regression/client_updated.cpp:41 | the cap is the smaller of max_norm and 10 |
| ResumeCursor.Clip | Linear_Regression/client_updated.cpp:39-45 | clipping keeps the gradient's width |
| ResumeCursor.ClipBound | Linear_Regression/client_updated.cpp:39-45 | for a norm that scales with non-negative factors, a gradient within the cap is unchanged, one above it is scaled to norm exactly the cap, and the result never exceeds the cap |
| ResumeCursor.Step | Linear_Regression/client_updated.cpp:73 | the step keeps the weights' width |
| ResumeCursor.Update | Linear_Regression/client_updated.cpp:66-78 | the update keeps the weights' width, and the linear client's weights come out finite or zero |
| ResumeCursor.LinearUpdate | Linear_Regression/client_updated.cpp:66-78 | a finite gradient within the cap whose step stays finite gives the plain averaged step; a non-finite gradient leaves finite weights unchanged and resets non-finite ones to zero |
| ResumeCursor.LinearWithoutRegularisation | Linear_Regression/client_updated.cpp:62 | the linear client's averaged sum is the batch client's gradient of the same rows (Linear_Regression/client.cpp:60) with the lambda·w term taken out |
| ResumeCursor.LinearPrefix | Linear_Regression/client_updated.cpp:59-63 | the error sum over the first n rows depends on those rows only |
| ResumeCursor.LogisticPrefix | Logistic_Regression/client_updated.cpp:46-50 | the logistic sum over the first n rows depends on those rows only |
| ResumeCursor.LogisticUpdateIsGradientStep | Logistic_Regression/client_updated.cpp:52-53 | the logistic update is a step of 0.01 against the batch client's logistic gradient of the same rows (Logistic_Regression/client.cpp:83-92) |
| ResumeCursor.Advance | Logistic_Regression/client_updated.cpp:46-67 | training on a run of rows keeps the weights' width |
| ResumeCursor.TrainCall | Logistic_Regression/client_updated.cpp:36-70 | a call keeps the weights' width, and a call that does not report the end moves the cursor forward, still inside the data |
| ResumeCursor.TrainCallShape | Linear_Regression/client_updated.cpp:47-96 | a call with rows left sends its new weights once, whole, in writes of 1 to 100 values; it reports the end exactly when at most 100 rows were left and then rewinds the cursor to 0, otherwise the cursor moves by exactly 100; a call with no rows left changes and sends nothing |
| ResumeCursor.BatchEnd | Linear_Regression/client_updated.cpp:65-92 | the end of a batch at row i, after 100 rows or at the last row, gives the call's outcome: the update, its writes, and the cursor rewound or moved past i |
| ResumeCursor.Epoch | Linear_Regression/client_updated.cpp:140-142 | an epoch keeps the weights' width and leaves the cursor at 0 when any row was left |
| ResumeCursor.Interval | Linear_Regression/client_updated.cpp:59 | the rows from lo up to hi, in order |
| ResumeCursor.Batches | Linear_Regression/client_updated.cpp:59-65 | every batch of an epoch is a non-empty run of rows inside the data |
| ResumeCursor.BatchesCover | Linear_Regression/client_updated.cpp:59-93 | an epoch from a cursor trains on the rows from the cursor to the end, each exactly once and in order, in batches of 100 of which only the last may be shorter, and none empty |
| ResumeCursor.EpochRows | Linear_Regression/client_updated.cpp:137-143 | an epoch from cursor 0 visits exactly the rows 0 to n - 1 |
| ResumeCursor.Trajectory | Linear_Regression/client_updated.cpp:59-93 | one weight vector per batch, each of the weights' width |
| ResumeCursor.TrajectoryFirst | Linear_Regression/client_updated.cpp:59-93 | the weights after an epoch's batches are the first batch's update followed by the trajectory of the rest |
| ResumeCursor.EpochFollowsBatches | Linear_Regression/client_updated.cpp:137-143 | an epoch sends the weights after every batch, in order, and ends with the last of them |
| ResumeCursor.EpochStep | Linear_Regression/client_updated.cpp:140-142 | one call of an epoch either ends it or goes on from the new cursor, its writes being the new weights once |
| ResumeCursor.Epochs | Linear_Regression/client_updated.cpp:137-143 | the epochs keep the weights' width |
| ResumeCursor.EpochsStep | Linear_Regression/client_updated.cpp:137-143 | the epochs are the first epoch followed by the rest, each from cursor 0 |
| ResumeCursor.EpochsAfter | Linear_Regression/client_updated.cpp:137-143 | after the first epoch the cursor is back at 0, and the rest of the epochs go on from its weights and output |
| ResumeCursor.EpochSendsDoubles | Linear_Regression/client_updated.cpp:81 | an epoch writes nothing but weights |
| ResumeCursor.EpochsSendOnlyWeights | Linear_Regression/client_updated.cpp:131-143 | after the vector size, sent once before the first epoch, the client sends nothing but weights |
| ResumeCursor.FirstEpoch | Logistic_Regression/client_updated.cpp:102-107 | the first of several epochs writes only weights and keeps their width, and the rest go on from there |
| ResumeCursor.Trainer.constructor | Linear_Regression/client_updated.cpp:52 | the static cursor starts at row 0 |
| ResumeCursor.Trainer.TrainIncrementally | Linear_Regression/client_updated.cpp:47-96 | the call's end flag, weights, writes and new cursor are those `TrainCall` gives from the old cursor |
| ResumeCursor.Trainer.TrainEpoch | Linear_Regression/client_updated.cpp:140-142 | calling the trainer until it reports the end gives the epoch's output, weights and cursor |
| ResumeCursor.EndBatch | Linear_Regression/client_updated.cpp:65-92 | the update and the chunked writes at the end of a batch are the call's outcome |
| ResumeCursor.ApplyBatch | Linear_Regression/client_updated.cpp:66-78 | the clip, reset, step and reset (or the logistic client's plain step, Logistic_Regression/client_updated.cpp:53) compute the update |
| ResumeCursor.RunClient | Logistic_Regression/client_updated.cpp:95-107 | the client sends the vector size once, then three epochs, and its output and weights are those of `Epochs` |
| KernelCursor.Subtracted | temp/client.cpp:54-55 | the result keeps the gradient's length |
| KernelCursor.SubtractedAt | temp/client.cpp:54-55 | exactly the first `m` entries are lowered, entry `j` by `y * K(row_j, x)`, the others unchanged |
| KernelCursor.KernelGradient | temp/client.cpp:53-56 | the gradient keeps one entry per weight |
| KernelCursor.KernelGradientHinge | temp/client.cpp:48-56 | a sample with margin `y * kernel_output >= 1` leaves the gradient unchanged; one below 1 lowers every entry `j` by `y * K(row_j, x)` |
| KernelCursor.KernelOutput | temp/client.cpp:48-51 | the loop computes the kernel output `sum_j K(x, row_j) * w_j` |
| KernelCursor.SubtractKernels | temp/client.cpp:54-55 | the loop lowers every gradient entry by `y * K(row_j, x)` |
| KernelCursor.SampleUpdate | temp/client.cpp:46-58 | the gradient is the hinge update and the weights step by the whole accumulated gradient |
| KernelCursor.NextGradient | temp/client.cpp:46-56 | the gradient after sample `i` keeps its length |
| KernelCursor.NextWeights | temp/client.cpp:58 | `weights -= learning_rate * gradient` keeps the weights' length |
| KernelCursor.Steps | temp/client.cpp:42-74 | the loop keeps the weights' length, only appends to what was sent, and every vector sent has one entry per weight |
| KernelCursor.TrainCall | temp/client.cpp:35-40 | a call from the cursor keeps the weights' length |
| KernelCursor.MultipleStep | temp/client.cpp:62 | the number of exchanges grows by one exactly when the processed count reaches a multiple of 30 |
| KernelCursor.StepsOutcome | temp/client.cpp:42-74 | a call reports exhaustion only when rows run out before its quota, with the cursor unchanged; a pause advances the cursor by the whole quota and has sent one vector per 30 samples; a failed read leaves the cursor unchanged |
| KernelCursor.EndsQuiet | temp/client.cpp:58-62 | a sample that sends nothing keeps the outcome claim |
| KernelCursor.EndsExchange | temp/client.cpp:62-70 | a sample that sends a vector keeps the outcome claim |
| KernelCursor.WrittenSnoc | temp/client.cpp:63-67 | the frames of one more vector are appended after the earlier frames |
| KernelCursor.SendFrame | temp/client.cpp:23-29 | an exchange writes batch size 30, the vector size and the weights in chunks of 30 |
| KernelCursor.StepsQuiet | temp/client.cpp:46-62 | a sample that is not a 30th one continues with the new gradient and weights |
| KernelCursor.StepsExchange | temp/client.cpp:62-70 | at a 30th sample the weights are sent; a failed read ends the call broken, otherwise the reply replaces the weights |
| KernelCursor.Trainer.constructor | temp/client.cpp:36 | the static cursor starts at row 0 |
| KernelCursor.Trainer.TrainIncrementally | temp/client.cpp:31-75 | the status, weights, unread input, new cursor and written frames are those of `TrainCall` from the old cursor |
| KernelCursor.Epochs | temp/client.cpp:110-113 | the calls keep the weights' length |
| KernelCursor.EpochsAdvance | temp/client.cpp:110-113 | while the quotas of `n / 30` rows fit, no call reports exhaustion and a run without a failed read moves the cursor by all of them, sending one vector per 30 samples |
| KernelCursor.EpochsStep | temp/client.cpp:110-113 | one call, then the rest unless it did not pause |
| KernelCursor.CallOutcome | temp/client.cpp:31-75 | an exhausted call had fewer than `n / 30` rows left; a paused one moved the cursor by `n / 30` and sent one vector per 30 samples; a broken one kept the cursor |
| KernelCursor.MainNeverExhausts | temp/client.cpp:110-113 | the early exit of `main` never fires, and a run without a failed read leaves the cursor at `3 * (n / 30)` |
| KernelCursor.TooFewRows | temp/client.cpp:40-42 | with fewer than 30 rows a call trains on nothing and sends nothing |
| KernelCursor.ServerReadsClient | temp/client.cpp:110-113 | the temp server reading a run's output aggregates each sent vector in order and replies after each |
| KernelCursor.EpochsSentLength | temp/client.cpp:63-67 | every vector a run sends has one entry per weight |
| KernelCursor.RunClient | temp/client.cpp:110-118 | the client's output is the frames of every vector `Epochs` sends from cursor 0 |
| Csv.PieceEnd | Linear_Regression/data_loader.cpp:32 | the index found is the first delimiter at or after the start, or the end of the text |
| Csv.SplitPieces | Linear_Regression/data_loader.cpp:25 | no piece holds the delimiter, and text splits into no pieces exactly when it is empty |
| Csv.SplitTerminated | Linear_Regression/data_loader.cpp:32-34 | splitting text written as delimiter-free pieces, each followed by the delimiter, gives back those pieces, empty ones included |
| Csv.FirstDelimiter | Linear_Regression/data_loader.cpp:32 | the first piece ends at the first delimiter |
| Csv.TrailingDelimiter | Linear_Regression/data_loader.cpp:32-34 | a final delimiter starts no empty piece |
| Csv.Getline | Linear_Regression/data_loader.cpp:25 | one `std::getline` fails exactly at the end of the text; otherwise it yields the next piece and the remaining pieces are those after it |
| Csv.SplitLine | Linear_Regression/data_loader.cpp:31-34 | the `row_values` loop collects every field of the line in order |
| Csv.ParseAll | Linear_Regression/data_loader.cpp:43-45 | converting a list succeeds exactly when every piece converts, and then gives each piece's value at its own index |
| Csv.Split | Linear_Regression/data_loader.cpp:31-34 | splitting yields at most one piece per character (SplitPieces: none exactly for empty text, no piece holds the delimiter) |
| LinearLoader.ReadRow | Linear_Regression/data_loader.cpp:36-48 | a line is skipped exactly when it does not have 31 fields; a row read has 30 features |
| LinearLoader.ReadRowExact | Linear_Regression/data_loader.cpp:36-48 | a row is read exactly from 31 fields that all convert; its features are the first 30 values in order and its target the last |
| LinearLoader.LoadShape | Linear_Regression/data_loader.cpp:25-53 | a load keeps what the out-parameters held, grows features and labels in lockstep, adds at most one row per line and only rows of 30 features |
| LinearLoader.RowsOf | Linear_Regression/data_loader.cpp:25-53 | one row per line, each the line's own fields read as a row |
| LinearLoader.LoadWellFormed | Linear_Regression/data_loader.cpp:25-53 | a file whose every line is a well-formed row loads without throwing and appends every line's features and target in file order |
| LinearLoader.LoadWellFormedCons | Linear_Regression/data_loader.cpp:50-52 | one well-formed line pushes its features and target ahead of those of the later lines |
| LinearLoader.ConvertRow | Linear_Regression/data_loader.cpp:42-48 | the 30 features are converted in order, then the last field as target, and a conversion that throws ends the row |
| LinearLoader.LoadData | Linear_Regression/data_loader.cpp:8-59 | a file that does not open changes nothing; otherwise the header is skipped and the out-parameters end as `LoadLines` of the data lines |
| LinearLoader.LoadLines | Linear_Regression/data_loader.cpp:25-53 | a load keeps what `features` and `labels` held and only appends (LoadShape: in lockstep, at most one row per line, 30 features each) |
| KMeansLoader.LaterColumnsIgnored | KMeans/data_loader.cpp:31-41 | fields from column 2 on change nothing |
| KMeansLoader.LineEffect | KMeans/data_loader.cpp:30-41 | an empty line adds nothing; field 0 is pushed as a label, field 1 as a feature; the line throws exactly when one of them does not convert; later fields do not matter |
| KMeansLoader.FirstColumn | KMeans/data_loader.cpp:32-35 | column 0 converts and pushes the label, or throws |
| KMeansLoader.SecondColumn | KMeans/data_loader.cpp:36-39 | column 1 converts and pushes the feature, or throws, unless column 0 already threw |
| KMeansLoader.WithFields | KMeans/data_loader.cpp:24-45 | the count of lines with enough fields is at most the number of lines |
| KMeansLoader.LoadCounts | KMeans/data_loader.cpp:24-45 | a load keeps what the out-parameters held; without a conversion error it adds one label per non-empty line and one feature per line of two or more fields |
| KMeansLoader.Lockstep | KMeans/data_loader.cpp:24-45 | when every line has at least two fields, a load without error adds exactly one label and one feature per line |
| KMeansLoader.AllWithFields | KMeans/data_loader.cpp:31 | when every line has `n` fields, all of them count |
| KMeansLoader.ReadColumns | KMeans/data_loader.cpp:30-41 | the column loop's pushes and throw are those of `Columns` over the line's fields |
| KMeansLoader.LoadData | KMeans/data_loader.cpp:9-52 | a file that does not open changes nothing; otherwise the header is skipped and the out-parameters end as `LoadLines` of the data lines |
| KMeansLoader.Columns | KMeans/data_loader.cpp:31-41 | reading a line's columns only appends to the features and labels |
| KMeansLoader.LoadLines | KMeans/data_loader.cpp:24-45 | a load keeps what `features` and `labels` held and only appends (LoadCounts gives how many of each) |
| RfLoader.FeatureColumns | RF/data_loader.cpp:35-37 | once the label is read, the remaining fields are converted in order and appended as features, and the line throws exactly when one does not convert |
| RfLoader.FeatureColumnsCons | RF/data_loader.cpp:35-37 | one converted feature is appended ahead of the later ones |
| RfLoader.SampleOfLine | RF/data_loader.cpp:31-39 | a line throws exactly when field 1 is not an integer or a later field not a number; otherwise its label is field 1 and its features fields 2 onwards; field 0 plays no part |
| RfLoader.LoadCounts | RF/data_loader.cpp:25-44 | a load keeps what the out-parameters held, adds one feature row, one label and one to `row_count` per line it gets through, and without error gets through every line |
| RfLoader.ReadColumns | RF/data_loader.cpp:31-39 | the column loop yields the line's sample |
| RfLoader.LoadData | RF/data_loader.cpp:8-50 | a file that does not open changes nothing; otherwise the header is skipped and the out-parameters and row count end as `LoadLines` of the data lines |
| RfLoader.Columns | RF/data_loader.cpp:31-39 | without a conversion error, the features read from column `col` on are one per column from 2 onwards |
| RfLoader.ReadSample | RF/data_loader.cpp:31-39 | a line that converts has one feature per field after the first two (SampleOfLine gives the values and when it throws) |
| RfLoader.LoadLines | RF/data_loader.cpp:25-44 | a load keeps what `features`, `labels` and `row_count` held and only adds (LoadCounts gives one per line read) |

## Left out

- Sockets, acceptors, `connect` and the thread per connection are left out. A session is a sequential loop over one token sequence, and a reply is a list of tokens.
- Locks and the interleaving of concurrent clients are left out. Merges are sequential method calls on one server object, and the order-independence lemmas cover any arrival order.
- End of stream and a read error are one `Failed` read. In the updated LSVM server both end the session without touching the state, so the difference does not matter there.
- IEEE-754 rounding, NaN and infinities are left out: doubles are reals. `allFinite` is a caller-supplied predicate.
- `sigmoid`, `exp`, `log`, `sqrt`, the vector norm, `rbf_kernel` (with `gamma` folded in) and the AdaBoost alpha are function parameters. The lemmas state only what does not depend on them.
- Randomness is a parameter: shuffled index lists are arbitrary permutations, and random initial weights and centroids are inputs.
- File access and number parsing are parameters. The file is an `isOpen` flag plus its text. `std::stod`, `std::stoi` and `std::stof` are partial conversions. The `float` rounding of `stof` is not modelled.
- Eigen itself is left out: vectors are `seq<real>` and data matrices are sequences of rows. A matrix frame keeps Eigen's column-major entry order.
- 32-bit `int` overflow is not modelled, including `rows*cols*sizeof(double)` and the `prior*total_samples` truncation.
- Undefined behaviour on a session path stops the session with an explicit end (`DimensionMismatch`, `ZeroTotal`). Examples are an Eigen size mismatch, an out-of-range index and a division by a zero total.
- The tree codec (`serialize_tree_node`, `deserialize_tree_node`), `aggregate_forests`, `RandomForest` training, `perform_predictions` and the loaders of other directories are not part of this model. A tree is its serialised list of values.
- The naive Bayes `predict`/`predict_samples` log-likelihoods, `normalize_data`, standardisation and `evaluate_on_dummy_data` are floating-point scoring without state and are left out.
- The k-means client's `main` loop (KMeans/client.cpp:107-117) is left out: only its single iteration, the initial centroids' shape and the matrix frames are modelled.
- The logistic client's test-data load and prediction printout (Logistic_Regression/client.cpp:108-121) are left out. Console output is left out everywhere, including the loaders' closing messages.
- The Linear, Logistic and LSVM `_updated` clients never read the server's reply, so no compatibility between their frames and a server is claimed for them; the RF `_updated` client's read of the server's `send_global_forest` frame is covered by ForestFrames.ForestRoundTrip.
- AdaBoostServer.SortByAlpha: `std::sort` does not fix the order of learners with equal alpha. The model sorts by insertion, and TopLearners states what holds for every order.
- AdaBoostClient.TrainAdaboost: requires at least one row and one feature, because `data.col(0)` and the division by the row count are undefined otherwise.
- RfClientUpdated.ReceiveGlobalForest: says nothing about the forest after a failed read. The source leaves it resized with default trees.
- KernelCursor.RunClient: after a failed read the C++ weights are partly overwritten by the short read. The model keeps the stepped weights and ends the run.
- ResumeCursor.Clip: requires a non-negative cap. With a negative cap a zero gradient would be divided by its zero norm. The clients pass a positive constant.
- LinearLoader.LoadData: requires a load that returns normally to hold a row, because the closing message reads `features[0]`.
- RfLoader.LoadData: requires every data line to have at least two fields, because the loader pushes an uninitialised label otherwise. It also requires, as in LinearLoader.LoadData, a row for the closing message.

## Findings

| source | as written | input that shows it | evidently intended | confidence | as-written member | corrected member |
|---|---|---|---|---|---|---|
| Naive_Bayes/server.cpp:26-39 | a batch without rows of class c still goes through the merge, with size 0, zero means and unit variances; `(batch_size - 1) * batch_variances` then subtracts 1 | a class of 2 rows with variance 1 merged with an empty batch: the variance becomes 0 (and a class of 1 row divides by 0) | an empty batch leaves the class unchanged | not executed | NaiveBayesServer.EmptyBatchShrinksVariance | NaiveBayesServer.MergeCorrected |
| Naive_Bayes/server.cpp:33-37 | the pooling formula weights each variance by `n - 1`, as for sample variances, but the client sends population variances (Naive_Bayes/client.cpp:42) | rows {0, 2}, then a batch {4}: the merge gives 3.5, while the population variance of {0, 2, 4} is 8/3 and the sample variance 4 | the merged variance is the variance of all rows seen | not executed | NaiveBayesServer.PopulationInputsMispooled | NaiveBayesServer.MergeCorrectedIsPooled |

`NaiveBayesServer.Server` keeps the merge as written, since it models the
server itself. `MergeCorrected` is the intended merge. `MergeCorrectedIsPooled`
and `NaiveBayesClient.ClientBatchPooled` prove that it pools the client's
statistics exactly.
