# Eujeno: verified model

Eujeno cuts a decoder-only transformer into blocks of layers, serves them from unreliable nodes, and promises that a
greedy request answered by that network has exactly the tokens the whole model would have produced on one machine,
also when nodes die in the middle. This project models the parts that promise rests on and proves it.

**The specification.** `Transformer` treats the layers as uninterpreted functions (`emb`, `kv`, `att`, `head`) and defines
the next token without any cache: recompute every position, read the last one. `Expected` is the greedy continuation,
cut before the first stop token. Everything that generates is proved against it.

**Generation.**
- `Masking`, `BlockSpec`, `CacheCodec`, `Blocks`, `Generate`: the additive mask, decoder blocks with mutable local caches
  and renumbered layers, serialised caches, splitting a model, and the two in-process generators. `Renumbered`: what a
  block answers when its layers carry any cache indices.
- `Executor`, `NodeExec`, `MlxBackend`: what a worker does with one message, as a function of the caches it keeps for the
  job; the torch worker (objects with caches, created on demand) and the MLX worker (one cache per model layer) are
  classes proved against that function. `FusedMlx`: when fusing makes no difference there. `History`: which pasts of a
  block's cache give the right answer.
- `Relay`: why hops along a route compute the whole model: what each worker holds before and after every op of a round.
- `Workers`, `Serving`: the remote workers as one request sees them. Failures, lost replies, restarts, other requests,
  arrivals and departures are arbitrary choices (`*`), so each theorem covers every schedule of them. `faults` counts the
  hops that were lost and the workers that restarted; a request may only fail where this counter moved or nobody covers
  the model, so failing is never free. `waits` and `readings` count how often a request waited for coverage and read the
  listing, `calls` the messages sent and `picks` the tokens that came back: giving up early, not looking again, or
  producing a token twice shows. `restarts` counts the times a peer came back, under the same url, without the
  caches of the job in service.
- `JobStore`, `Coordinator`, `Orchestrator`: the durable log, the coordinator's segments, fused messages, coverage wait,
  failover and prefix replay, and the peer-to-peer loops. `Interleaving`: several requests at once.

**Discovery, routing and self-assembly.** `Registry`, `Gossip`, `Ageing`, `Routing`, `RoutingProofs`, `Coverage`,
`Topology`, `Allocator`, `Assembly`, over the decimal text of `Text`. `Live` says in terms of the listed nodes alone which
routes exist and which one is to be chosen; that is what the waits and the failover are proved to return.

**The coordinator as a concurrent state machine.** `CoordinatorState`: connections, calls, replies, disconnects, load and
reputation, interleaved at the points where a request waits. The class `App` performs the steps; the theorems are about
every sequence of them.

**Where the code gives less than it says.**
- `build_chain` answers "no chain" not only when coverage is incomplete. It takes the shortest block at each layer and never
  goes back: `ShorterBlockHidesAChain` is a network that is covered and gets no chain, `ChainIffShortestTiling` is the exact
  condition for every network, and `ChainIffCovered` gives the promised equivalence when blocks that start together end
  together and none passes the last layer.
- A peer that dies and returns under its url between two hops is not noticed: `decode` makes it an empty block and runs that
  at the next position. `RestartGoesUnnoticed` is such a run, with a wrong token and no error. So the peer-to-peer loops are
  right as long as `restarts` did not move, which the coordinator's connections guarantee and urls do not. For one decode
  `RightIff` is the exact rule, for every model: the block was fed exactly the inputs before the chunk at their positions, or
  already those and the chunk itself; and `RightAndReadyIff`: it answers right and stays fit for the next position if and only
  if its cache held exactly those inputs. An empty history after a restart and a stale one under a job id used again are both
  covered.
- The MLX offset check does not start a job "from the right position": after it the first layer is at the position sent if and
  only if it already was or that position is 0 (`AlignSeatsIff`). On a route the check never acts (`NeverReset`).
- A fused message does what single messages do exactly under the condition of `FusedIsOneByOneIff` on an MLX worker; on a
  torch worker always, except where the head comes first (`ChainIsOneByOne`, `WithoutActivation`). What the coordinator fuses
  meets both.
- Blocks prepared on one node renumber shared layers; `IntactAfterRemap` says exactly which keep their local positions. A
  renumbered block may answer wrong (`OverlapAnswersWrong`) or right (`ShiftedAnswersRight`); `RenumberedRightIff` is the exact
  rule: pairwise distinct cache indices, and index 0 among them or only single positions after the first chunk.
- A relay must not keep a dead node alive, but two live nodes that prune at different times do, for ever and at an unchanged
  heartbeat: `DeadNodeStaysVisible`, from a fresh network, for any number of rounds. At one registry `ReplacedIff` is the exact
  rule: what is held is replaced if and only if a strictly fresher relay arrived, or one carrying the url after a prune had
  removed it. While nothing is pruned only freshness counts (`StaleRelaysNeverRefresh`, `RefreshedIffFresher`).
- `append_token` keeps the list a prefix of a sequence exactly when the write is ahead of the list or carries that
  sequence's token (`AppendFollowsIff`); the writes of greedy attempts always do.

**Hypotheses.** Prompts are not empty; runs are greedy; workers advertise only what they serve, under keys that say which
layers they are, and serve the same after a restart; coordinator ids are unique within one process lifetime and a connection
ends with its worker process; peers hold nothing under the job ids of a peer-to-peer request at its start; an origin's url
belongs to one process at a time. A layer takes an additive mask by broadcasting, cutting one that is too long. Success is
never assumed: a request either has the whole answer, or names a fault or missing coverage.

## Model

| member | source | states |
|---|---|---|
| Text.ParseKeyOfKey | eujeno/net/discovery.py:66-69 | every block key `lo-hi` a node advertises is read back as the same pair by routing and gap counting |
| Text.PrintToNat | eujeno/net/discovery.py:66-69 | every numeral without a superfluous zero in front is the decimal text of its value |
| Text.ParseKeyMeans | eujeno/net/discovery.py:68 | a key is read as a pair if and only if it is two accepted numbers around its only dash |
| Text.ParseIntMeans | eujeno/net/discovery.py:68 | a number is accepted if and only if between surrounding blanks it is digits, perhaps after a plus sign, and then has their value |
| Transformer.PassPrefix | eujeno/model/masking.py:7-16 | what any stack of layers computes for the first positions does not depend on later ones |
| Transformer.GreedyResume | eujeno/net/coordinator.py:136-146 | continuing greedily from an already produced prefix gives the uninterrupted sequence: prefix replay is sound |
| Transformer.CleanPrefixIsExpected | eujeno/net/generation.py:53-59 | a stop-free greedy prefix that is long enough, or whose next token is a stop token, is exactly the expected answer |
| Transformer.CutIsLongestCleanPrefix | eujeno/net/coordinator.py:201-204 | the expected answer is the longest prefix of the greedy tokens without a stop token |
| Transformer.ExpectedIff | eujeno/net/coordinator.py:136-204 | the expected answer is exactly the list of at most max_new tokens, each the one picked after all before it, none a stop token, that ends early only where a stop token would be next |
| Masking.CausalRowShowsPrefix | eujeno/model/masking.py:13-15 | a mask row that is zero exactly up to a position shows a query exactly the cache entries up to it |
| Masking.BuildCausalMask | eujeno/model/masking.py:7-16 | the buffer filled in place is zero where the key index is at most the query's absolute position, and the minimum elsewhere |
| BlockSpec.RunSlabChunk | eujeno/model/blocks.py:28-45 | a block that consumed some inputs and is fed a chunk at the next positions answers the tail of one whole pass and then holds that pass's cache |
| BlockSpec.SlabAdvances | eujeno/model/generate.py:36-39 | the same for a block inside the model: fed what the layers below produced, it produces what the layers above need |
| BlockSpec.LastGivesNextToken | eujeno/model/generate.py:40-41 | the head applied to the last position of the last activation is the cache-free next token |
| CacheCodec.CacheToBytes | eujeno/model/cache.py:8-15 | one tensor `key_i` and one `value_i` for each layer i, holding its keys and its values in order, and nothing else |
| CacheCodec.DecodeEncoded | eujeno/model/cache.py:18-24 | reading back what was written gives the same cache, for any number of layers |
| Blocks.PrepareDecoderBlock | eujeno/model/blocks.py:103-114 | exactly the layers of the slab get their local index; all other layers keep theirs |
| Blocks.IntactAfterRemap | eujeno/model/blocks.py:111-113 | after preparing any list of slabs, the layers of one carry their local positions if and only if each was prepared last by a slab with the same first layer |
| Blocks.DisjointStayIntact | eujeno/net/node_exec.py:21 | disjoint slabs prepared on one model all keep their local positions |
| Blocks.OverlapRenumbers | eujeno/model/blocks.py:109-113 | two overlapping slabs that start at different layers: preparing the second moves every shared layer from its local position in the first |
| Blocks.IntactRunsItsSlab | eujeno/model/blocks.py:28-45 | layers at their local positions and a fitting cache: the block runs as its slab, the mask always fits, and the cache fits again |
| Blocks.DecoderBlock.RunBlock | eujeno/model/blocks.py:28-45 | through mask, mutable cache and whatever indices its layers carry by now, a block computes what they make of the chunk, or raises where the mask does not fit; with local indices it computes its slab |
| Renumbered.RenumberedRightIff | eujeno/model/blocks.py:28-45 | a fresh block with any cache indices answers following chunks right for every model if and only if the indices are pairwise distinct and either one is 0 or later chunks are single positions |
| Renumbered.OverlapAnswersWrong | eujeno/model/blocks.py:109-113 | ranges 0-2 and 1-3 on one model: the block 0-2 answers wrong on a single position |
| Renumbered.ShiftedAnswersRight | eujeno/model/blocks.py:109-113 | ranges 2-5 and 1-5: the layers of 2-5 are shifted and yet any prompt followed by single tokens is answered right |
| Blocks.DecoderBlock.SetCache | eujeno/model/blocks.py:47-51 | any cache is taken over; a usable block stays usable exactly with one list of equal length for each layer, or none |
| Blocks.SplitIntoBlocks | eujeno/model/blocks.py:65-84 | for any boundaries one block with an empty cache for each neighbouring pair, indices as prepared in turn; for every strictly increasing split of the whole model distinct usable blocks |
| Blocks.ComputeBoundaries | eujeno/model/blocks.py:87-100 | fails exactly outside 1..layers; otherwise a strictly increasing split of all layers whose sizes differ by at most one and never grow |
| Blocks.ChunksEqualWhole | eujeno/model/blocks.py:28-51 | any cutting into chunks, with the cache serialised and reloaded between any of them, answers and ends up holding what one pass gives |
| Generate.ReferenceGenerate | eujeno/model/generate.py:9-24 | the whole model with one growing cache gives the cache-free greedy tokens |
| Generate.RunPipeline | eujeno/model/generate.py:36-40 | one round through all blocks gives the tail of the whole pass and leaves every block holding the longer history |
| Generate.PipelineGenerate | eujeno/model/generate.py:28-45 | the split pipeline with fresh caches gives the cache-free greedy tokens, for every split, prompt and length |
| Executor.ChainIsOneByOne | eujeno/net/node_exec.py:60-89 | on a torch worker one fused message and one message for each step give the same reply and leave the same caches, whatever the steps after the first embed, decode or activation at hand, also when one raises |
| Executor.WithoutActivation | eujeno/net/node_exec.py:84-89 | with no step, or the head first and no activation at hand, both leave the same caches and agree in reply exactly where the single messages have nothing to answer |
| Executor.ReplyShape | eujeno/net/node_exec.py:30-93 | whatever a worker kept, a message is answered by a token exactly when it contains the head, or raises |
| Executor.RefusesUnserved | eujeno/net/node_exec.py:30-93 | an answered message contains, up to its first head, only ends the worker has and blocks it serves |
| Executor.AlignSeatsIff | eujeno/model/mlx_backend.py:182-194 | after the MLX offset check the first layer is at the position sent if and only if it was before or the position is 0 |
| FusedMlx.FusedIsOneByOneIff | eujeno/model/mlx_backend.py:170-221 | on an MLX worker a message of several loaded blocks does what single messages do, reply and caches, if and only if after its one check the first layer of every later block is at the position sent |
| History.RightIff | eujeno/net/node_exec.py:43-53 | a decode at a position is answered right for every model if and only if its block was fed exactly the inputs before it at their positions, or already those and the chunk |
| History.HoldsIff | eujeno/net/node_exec.py:43-53 | a block's cache holds the inputs before a position for every model if and only if they are what it was fed |
| History.RightAndReadyIff | eujeno/net/server.py:349-362 | the answer is right and the cache fit for the next position, for every model, if and only if the cache held exactly the inputs before the chunk |
| History.RestartIsWrong | eujeno/net/server.py:355-361 | an empty block in the middle of a job answers wrong for some model, whatever the block and the inputs |
| History.ReusedJobIsWrong | eujeno/net/orchestrator.py:91-91 | under a job id whose block was fed something else first, a prompt is answered wrong for some model |
| History.WorkerAnswers | eujeno/net/node_exec.py:43-53 | a torch worker's reply to a decode message is right exactly when its block's history makes it so |
| History.RestartGoesUnnoticed | eujeno/net/server.py:37-37 | a worker that restarts after the first of two rounds answers without an error and the head picks a wrong token |
| Executor.SingleDecode | eujeno/net/node_exec.py:43-53 | a decode message is one step on the job's block cache, answered or raised |
| Relay.MlxSimulatesTorch | eujeno/model/mlx_backend.py:203-210 | one cache for each model layer, each advanced at its own offset, does to a slab what the locally indexed cache does at the positions sent, and leaves other layers alone |
| Relay.MlxServesAll | eujeno/model/mlx_backend.py:203-210 | an MLX slab runs through if and only if all of its layers were loaded |
| Relay.DecodeAdvances | eujeno/net/node_exec.py:43-53 | on either kind of worker a decode advances its own block to the longer history, answers its tail, and does not touch the caches of other blocks |
| Relay.StepsAnswer | eujeno/net/node_exec.py:71-89 | consecutive ops on a ready worker end in the specified activation or next token, and raise only where the worker does not serve an op |
| Relay.OffsetIsNextPosition | eujeno/model/mlx_backend.py:114-124 | every layer an MLX worker serves on the route has an offset equal to the next cache position |
| Relay.NeverReset | eujeno/model/mlx_backend.py:182-194 | under the positions of a round the cache-reset branch is never taken |
| Relay.MessageAnswers | eujeno/net/coordinator.py:167-197 | a message of a round, fused or not, to a ready torch or MLX worker is answered as specified and leaves it ready for what follows |
| Relay.OthersStayReady | eujeno/net/coordinator.py:169-197 | workers that run none of a message's ops are as ready after it as before |
| Relay.NextRound | eujeno/net/coordinator.py:207-208 | after a round's last op every worker is ready for the next round, fed only the new token |
| Relay.FreshIsReady | eujeno/net/coordinator.py:252-253 | a job id no worker has seen starts ready, also with a replayed prefix |
| Workers.LaterNamesAreReserved | eujeno/net/coordinator.py:67-69 | a counter name is still unissued exactly when its number is at least the counter: ids never collide |
| Workers.Swarm.NextJob | eujeno/net/coordinator.py:252-253 | an attempt's job id is one no worker keeps anything for |
| Workers.Swarm.Elapse | eujeno/net/coordinator.py:84-104 | while a request waits anything may change but what workers keep for its job, which behind a url, and only there, a restart may drop |
| Workers.Swarm.Call | eujeno/net/coordinator.py:71-82 | a hop that returns was handled by that worker alone, starting from what it kept unless it restarted; it fails only by a fault, an unknown node or an exception in the worker |
| Workers.Swarm.ReadListing | eujeno/net/orchestrator.py:76-82 | a read of the registry fails or gives what is listed at that moment, and counts |
| Serving.Send | eujeno/net/coordinator.py:115-123 | a message of a round either brings the specified answer with all workers ready for the next op, as long as none restarted, or failed for a fault or an op its worker does not serve |
| Serving.RaisedIsUnable | eujeno/net/node_exec.py:30-93 | a worker that holds what it should raises only where the route gives it an op it does not serve |
| Serving.EndEverywhere | eujeno/net/coordinator.py:209-213 | without faults no worker of the route keeps anything for the job; failures are ignored |
| Serving.GoodStep | eujeno/net/coordinator.py:198-208 | a correct beginning plus the specified next token is again one, or complete if that token is a stop token |
| Serving.RoundGoesOn | eujeno/net/coordinator.py:205-208 | after a token was taken the next round can start, fed only that token at the next position |
| Serving.RoutedIsAble | eujeno/net/discovery.py:55-90 | a route built from truthful adverts gives every op to a known, non-excluded node that serves it |
| Serving.NextAttempt | eujeno/net/orchestrator.py:127-129 | a route without the nodes that failed so far extends a history in which failed nodes never reappear |
| Serving.FailedAreDistinct | eujeno/net/orchestrator.py:84-129 | in a failover history no node fails twice |
| JobStore.AppendFollowsIff | eujeno/net/jobstore.py:65-82 | after one write the stored list still follows a sequence if and only if the write is ahead of the list or carries that sequence's token |
| JobStore.ReplayNeverRewrites | eujeno/net/jobstore.py:65-82 | writes that follow one sequence, in any order, repeated or lost, only extend the list and keep it a prefix of that sequence |
| JobStore.ReplayInOrderCompletes | eujeno/net/coordinator.py:265-271 | writing the sequence in order from any stored position on completes the list to exactly there |
| JobStore.LastWriteStands | eujeno/net/jobstore.py:65-82 | in any sequence of writes the last one to a position stands, whatever is written elsewhere, unless it was ahead of the list, and then it leaves no trace |
| JobStore.UnwrittenStays | eujeno/net/jobstore.py:65-82 | a stored position that is not written keeps its token, and none is ever taken away |
| JobStore.JobStore.CreateJob | eujeno/net/jobstore.py:55-63 | a fresh running row without tokens replaces any row of that id; no other row changes |
| JobStore.JobStore.AppendToken | eujeno/net/jobstore.py:65-82 | up to the next position the token is there afterwards and every other one stays; beyond it nothing changes; position stays the number of tokens, no other row is touched and none created |
| JobStore.JobStore.ResetProgress | eujeno/net/jobstore.py:84-87 | the row loses all tokens and keeps everything else |
| JobStore.JobStore.Finish | eujeno/net/jobstore.py:89-92 | status, result and reason are set together; tokens stay |
| JobStore.JobStore.Fail | eujeno/net/jobstore.py:94-97 | status and error are set; tokens stay |
| JobStore.JobStore.SetStatus | eujeno/net/jobstore.py:99-102 | only the status changes, of an existing row only |
| JobStore.JobStore.Recover | eujeno/net/jobstore.py:104-109 | exactly the active rows become interrupted and are counted; tokens stay and no active row is left |
| Routing.ItemsKeepsAll | eujeno/net/discovery.py:60-60 | every node that is not excluded takes part in routing |
| RoutingProofs.ItemsAreKept | eujeno/net/discovery.py:60-60 | exactly the entries that are not excluded take part, each once and in dictionary order |
| Routing.SortSorted | eujeno/net/discovery.py:70 | sorting orders the advertised blocks by start, end, key and url, and keeps exactly the same blocks |
| Routing.CollectRanges | eujeno/net/discovery.py:65-69 | every advertised block of every node in order, or an exception exactly when some key is malformed |
| Routing.TileGreedily | eujeno/net/discovery.py:71-76 | the chain and cursor of walking the sorted blocks, taking each non-empty one that starts at the cursor |
| Routing.BuildChain | eujeno/net/discovery.py:55-90 | exactly which of chain, no chain or exception is returned, over the non-excluded nodes and with all scores; what that means in the nodes themselves is Live.RoutedMeans and Live.PlainMeans |
| RoutingProofs.ChainIsSound | eujeno/net/discovery.py:55-90 | every chain tiles all layers without gap or overlap and gives each stage to a node that advertises it |
| RoutingProofs.ChainIffShortestTiling | eujeno/net/discovery.py:70-78 | a chain is returned if and only if both ends are served and some tiling takes the shortest block everywhere, with none starting at the end |
| RoutingProofs.ChainIffCovered | eujeno/net/discovery.py:55-90 | when blocks that start together end together and none passes the last layer, a chain is returned if and only if one exists |
| RoutingProofs.ShorterBlockHidesAChain | eujeno/net/discovery.py:70-78 | a network that is covered and gets no chain |
| RoutingProofs.LeastIsLeast | eujeno/net/discovery.py:84-85 | the chosen holder is no worse than any: greater reputation, or equal and greater speed, or equal again and smaller load, or all equal and no later |
| RoutingProofs.LeastIsChosen | eujeno/net/discovery.py:84-90 | the same over all nodes that advertise a stage, in dictionary order |
| RoutingProofs.BestReputationIsChosen | eujeno/net/discovery.py:84-85 | a node offering a stage with a greater reputation than every other one offering it gets the stage |
| RoutingProofs.ScoresOnlyChooseHolders | eujeno/net/discovery.py:79-90 | scores change neither failure nor the block keys and their order; each stage goes to the holder that is best by the given reputations, speeds and loads, read as 0 where missing, and then by order |
| RoutingProofs.UnscoredTakesFirst | eujeno/net/discovery.py:61-76 | without scores each end goes to the first node in dictionary order offering it, and a block to the least spelling of its range and, of that, the least url |
| Live.RoutedMeans | eujeno/net/coordinator.py:222-229 | over the connections as listed: no chain exactly if none is there to be chosen, an exception exactly if both ends are offered and a key is malformed, otherwise the shortest tiling with each stage at the best node by reputation, load and order |
| Live.PlainMeans | eujeno/net/discovery.py:55-90 | the same without scores: each end at the first node offering it, each block at the least spelling and url |
| Live.ChosenIsBest | eujeno/net/discovery.py:84-90 | the node a stage goes to, compared with every listed node that is not excluded and offers it |
| Coordinator.GroupSegments | eujeno/net/coordinator.py:148-164 | every op kept in order, no empty segment, neighbours on different nodes, fused exactly where a node with the capability has several ops |
| Coordinator.SegmentInRound | eujeno/net/coordinator.py:156-164 | a segment is a run of the round's ops on its node; one with several ops never starts with the head, and starts with embed exactly at the beginning |
| Coordinator.RunFused | eujeno/net/coordinator.py:172-185 | one message with the inputs its first step needs brings the segment's activation, or after the head the next token |
| Coordinator.RunUnfused | eujeno/net/coordinator.py:186-197 | exactly one message for each op brings the same |
| Coordinator.RunRound | eujeno/net/coordinator.py:167-200 | a round over any segmentation takes one message for each fused segment and one for each op of the others, and yields the cache-free next token, or names a failed node of the route and a reason |
| Coordinator.OnToken | eujeno/net/coordinator.py:205-206 | a produced token written or lost keeps the row a beginning of the answer, and rewrites nothing |
| Coordinator.RunGeneration | eujeno/net/coordinator.py:112-214 | from any correct prefix an attempt yields the whole answer with the right finish reason, or fails at a node of its route for a reason; the log follows the answer, is complete if no write was lost, and no token it held is produced again |
| Coordinator.AwaitCoverage | eujeno/net/coordinator.py:216-235 | a timeout only after all polls and with no chain among the listed nodes that are not excluded; otherwise the route to be chosen among them, with the ids that can chain; a covered network is served without waiting; the row is marked waiting and running again |
| Coordinator.ReadLog | eujeno/net/coordinator.py:266-270 | what is resumed from is the logged tokens, or nothing where reading raised |
| Coordinator.Attempt | eujeno/net/coordinator.py:241-256 | one attempt waits as above, takes a route chosen without the excluded nodes, resumes from the log, and fails only where a fault happened |
| Coordinator.GenerateWithFailover | eujeno/net/coordinator.py:237-275 | for every schedule of failures and lost writes: the whole model's tokens, or six faulty attempts, or no chain among the listed nodes left after all polls; every route is the one to be chosen without the nodes that failed before; stored tokens are never rewritten, and none is produced twice if the log is readable |
| Coordinator.Infer | eujeno/net/coordinator.py:277-293 | a request answers the whole model's own tokens; its row has the request's model, prompt and prompt length and ends done with exactly those tokens, text and reason, or failed with the error, when no write is lost; it touches no other row |
| Interleaving.OthersDoNotMatter | eujeno/net/coordinator.py:67-82 | in any interleaving of any requests' hops and log writes, one request gets the replies it would get alone, and its caches and its row end up as they would alone |
| Interleaving.OthersHopIsElapse | eujeno/net/coordinator.py:71-82 | a hop of another request is one of the changes a waiting request is proved against |
| Interleaving.NamesApart | eujeno/net/coordinator.py:67-69 | names drawn from one counter at different times are different |
| Orchestrator.RelayDecoders | eujeno/net/orchestrator.py:105-109 | the decoder hops in order, one message each, bring the activation above the last block, or name the peer that failed and a reason |
| Orchestrator.RelayRound | eujeno/net/orchestrator.py:101-113 | one hop for each op yields the cache-free next token, as long as no peer restarted, or names the peer that failed |
| Orchestrator.RelayTokens | eujeno/net/orchestrator.py:93-119 | the tokens only grow and never contain a stop token; as long as no peer restarted they are at every point a beginning of the answer, all of it unless a peer of the route failed |
| Orchestrator.DistributedGenerate | eujeno/net/orchestrator.py:9-46 | over a static topology that tiles the model: as many tokens as asked unless a hop failed, exactly the greedy ones as long as no peer restarted, and no caches left behind without faults |
| Orchestrator.GenerateTokens | eujeno/net/generation.py:23-59 | as long as no peer restarted the greedy tokens cut before the first stop token; always a finish reason that says which end was reached |
| Orchestrator.Refresh | eujeno/net/orchestrator.py:76-82 | after a read that succeeded and was not empty, exactly what is listed, in order; otherwise what it was |
| Orchestrator.ResolveChain | eujeno/net/orchestrator.py:67-82 | every wait is followed by a read; no chain only with no poll left and none among what was read last without the excluded peers; otherwise the route to be chosen there; stages that cover the model are used without waiting |
| Orchestrator.DistributedGenerateResilient | eujeno/net/orchestrator.py:49-130 | as long as no peer restarted, tokens returned, also with an error, are a beginning of the answer, all of it on success, each produced once; at most max_failovers + 1 attempts over routes chosen without the peers that failed before, each failed one by a fault; giving up for lack of coverage means that no poll is left and no chain in what the registry listed when last read, or in the first stages while no read showed anything; without faults in the last attempt its caches are dropped |
| NodeExec.NodeState.constructor | eujeno/net/node_exec.py:15-22 | any ranges are prepared in turn; what the node advertises is what runs under its keys if and only if no range renumbers a layer of another, as disjoint ones never do |
| NodeExec.PrepareAll | eujeno/net/node_exec.py:21 | every range gets its layers under its key, and the indices end up as if prepared one after the other |
| NodeExec.PreparedIsHonest | eujeno/net/node_exec.py:21-27 | every advertised key parses to the layers prepared under it, and on a torch worker they kept their places if and only if no range renumbered another |
| NodeExec.NodeState.BlockOf | eujeno/net/node_exec.py:44-50 | a block is created once for each job and key with an empty cache, of its own, and only for served keys |
| NodeExec.NodeState.DecodeStep | eujeno/net/node_exec.py:43-53 | the object caches of the job change as the executor function says; other jobs do not |
| NodeExec.NodeState.RunChain | eujeno/net/node_exec.py:60-89 | the loop over steps refines the executor function, also when a step raises halfway |
| NodeExec.NodeState.HandleRequest | eujeno/net/node_exec.py:30-93 | every op refines the executor function on the caches of its job and leaves all other jobs alone |
| NodeExec.NodeState.ServeDecode | eujeno/net/server.py:349-362 | the HTTP endpoint refuses exactly the unserved blocks and otherwise is the same step on the job's caches |
| MlxBackend.MlxNodeState.JobCache | eujeno/model/mlx_backend.py:114-124 | the job's caches, one empty list for each model layer when first asked for |
| MlxBackend.MlxNodeState.RunLayers | eujeno/model/mlx_backend.py:203-210 | each layer of the slab advances its own cache; a layer not loaded stops the run |
| MlxBackend.MlxNodeState.RunAll | eujeno/model/mlx_backend.py:196-221 | the loop over steps refines the executor function |
| MlxBackend.MlxNodeState.HandleRequest | eujeno/model/mlx_backend.py:159-221 | every op, with the offset check, refines the executor function and leaves other jobs alone |
| MlxBackend.BothHeld | eujeno/model/mlx_backend.py:114-118 | a ready MLX and a ready torch worker keep the same entries for every layer of their blocks |
| MlxBackend.MlxAgreesWithTorch | eujeno/model/mlx_backend.py:159-221 | in any round an MLX and a torch worker with the same history give the same reply to the same message, fused or not, and keep the same entries |
| Registry.Registry.Upsert | eujeno/net/discovery.py:28-30 | the origin's own record is always taken and only that one changes |
| Registry.Registry.Merge | eujeno/net/discovery.py:32-44 | every url unknown or with a strictly later heartbeat is taken from the relay, with a new time to live; every other record stays; in any order of the map |
| Registry.Registry.Prune | eujeno/net/discovery.py:46-48 | exactly the entries that have not expired stay |
| Registry.PruneHidesNothing | eujeno/net/discovery.py:46-52 | pruning shows in nothing read then or later, and leaves exactly the urls that are visible |
| Registry.MergeKeepsFreshest | eujeno/net/discovery.py:32-44 | after any relays the held record is one that was said and none said is fresher |
| Registry.MergeOrderDoesNotMatter | eujeno/net/discovery.py:32-44 | order and repetition of relays do not matter, given one record for each heartbeat |
| Registry.StaleRelaysNeverRefresh | eujeno/net/discovery.py:32-44 | relays that never beat the held heartbeat never move its expiry, and the url is invisible exactly from then on |
| Registry.RefreshedIffFresher | eujeno/net/discovery.py:7-15 | relays alone replace the held record if and only if one of them carries a later heartbeat, or one where the record has none |
| Ageing.ReplacedIff | eujeno/net/discovery.py:32-48 | over any merges and prunes what is held for a url is replaced if and only if a strictly fresher relay arrived, or one carrying the url after a prune past its expiry |
| Ageing.NeverAgesOut | eujeno/net/discovery.py:42-48 | two nodes that prune and pull in turns hold a record on for any number of rounds, at the same heartbeat, although nobody stamps |
| Ageing.DeadNodeStaysVisible | eujeno/net/discovery.py:33-39 | from a fresh network, a node that stamped once and died is still visible after any number of times to live |
| Gossip.NextHb | eujeno/net/server.py:50-56 | a heartbeat is the clock where that is ahead of the last one, and otherwise a millisecond more than that |
| Gossip.GossipNode.constructor | eujeno/net/server.py:41-59 | a node starts knowing exactly itself, under its first heartbeat |
| Gossip.GossipNode.NextHeartbeat | eujeno/net/server.py:50-56 | the counter moves to the next heartbeat |
| Gossip.GossipNode.GossipStep | eujeno/net/server.py:106-132 | stamp and adopt itself, merge every pull that arrived, push the same advert, prune: the entries after one step |
| Gossip.PullKeepsFreshest | eujeno/net/server.py:117-122 | after one round of pulls a url is known if it was or some reply carried it, and held is what was held unless something said beats it, and then the freshest said, with a new time to live |
| Gossip.GossipNode.PostRegistry | eujeno/net/server.py:315-327 | a self-push is taken without a heartbeat check, a missing record as one without stages; of a relayed map exactly what is unknown or fresher is taken; anything else is ignored |
| Gossip.ActKeepsInv | eujeno/net/server.py:106-132 | each action of any node keeps all held and sent records genuine, heartbeats increasing and expiries bounded |
| Gossip.EveryRun | eujeno/net/server.py:106-132 | over every run with delay, loss and repetition a held record was stamped by its url's node at most at its latest heartbeat, heartbeats strictly increase, and no expiry exceeds the holder's latest local time plus its time to live |
| Gossip.OneRecordPerHeartbeat | eujeno/net/server.py:43-56 | in every run each heartbeat of a node is on one record only |
| Gossip.StepIsActions | eujeno/net/server.py:106-132 | a node's gossip step is a sequence of the network's actions |
| Topology.ParseStages | eujeno/net/topology.py:15-35 | the loop reads every token into the specification and fails for good at the first bad one; what the tokens mean is ParseMeans |
| Topology.ParseMeans | eujeno/net/topology.py:15-35 | parsing fails if and only if some token between its blanks is neither empty, embed, head nor a decoder range; otherwise the ends are set exactly if named and the ranges are those named, in order |
| Topology.ParseRendered | eujeno/net/topology.py:15-35 | parsing what the planner prints gives exactly the planned ends and range, for all plans |
| Coverage.CountBlock | eujeno/net/discovery.py:97-101 | one block counted in place, clipped to the model, adds one to exactly its layers |
| Coverage.RunEnd | eujeno/net/discovery.py:106-108 | the inner scan ends where the run below target cannot be extended |
| Coverage.ScanGaps | eujeno/net/discovery.py:102-112 | exactly the maximal runs below target, in order, never touching, each with its true minimum |
| Coverage.CoverageGaps | eujeno/net/discovery.py:93-118 | the gaps and replica counts of what is advertised, or an exception exactly for a malformed key |
| Coverage.CoverCounts | eujeno/net/discovery.py:96-101 | the cover of a layer is the number of advertised keys, over all nodes, whose range contains it |
| Coverage.HoldersCounted | eujeno/net/discovery.py:115-116 | the replicas of an end are the nodes that offer it |
| Allocator.FittedLayersFit | eujeno/net/capacity.py:20-28 | the layers allowed fit the RAM that is not reserved, one more would not unless they are all, layers of no size allow none, and the whole model fits exactly if its layers and ends do |
| Allocator.WeightsCounted | eujeno/net/capacity.py:13-22 | the bytes of a layer are those of its four attention and three feed-forward matrices, with the defaults for missing dimensions, and the ends one matrix over the vocabulary |
| Allocator.NeediestIsFirst | eujeno/net/allocator.py:16-19 | the chosen gap has the fewest replicas and among those the greatest length, and is the first such gap |
| Allocator.ChooseStages | eujeno/net/allocator.py:8-24 | the printed claim, read back, takes each end exactly if ends are taken and it is served less often than the target, and exactly with a gap and room one range: the beginning of the neediest gap, as far as the room goes |
| Allocator.PlanAutoStages | eujeno/cli.py:83-93 | the same for the nodes' gaps and the number of nodes serving each end, with the room of the RAM, ends being taken exactly if the whole model or all its layers fit; an exception exactly for a malformed key |
| Allocator.ClaimLowersDeficit | eujeno/net/allocator.py:18-21 | a block of layers below target lowers the total deficit by exactly its length |
| Allocator.ClaimInsideGap | eujeno/net/allocator.py:16-21 | a range is claimed exactly when a layer is missing and there is room; it lies inside a gap, fits, and lowers the deficit by its length |
| Assembly.JoinMakesProgress | eujeno/cli.py:83-93 | a join keeps blocks disjoint and, with room for a layer, strictly lowers the number of uncovered layers |
| Assembly.JoinServesEnds | eujeno/net/allocator.py:14-23 | after a node that takes ends has joined at target 1 both ends are served, and a join takes no node away |
| Assembly.JoinsCloseGaps | eujeno/cli.py:83-93 | after k joins at least k fewer layers are uncovered, or none is left |
| Assembly.EndsStayServed | eujeno/cli.py:83-93 | from then on both ends are served after every join |
| Assembly.FullCoverageIsRouted | eujeno/net/discovery.py:55-90 | disjoint blocks that cover all layers, with both ends served, always get a chain, whatever the scores |
| Assembly.SelfAssembly | eujeno/net/discovery.py:55-118 | from any network of disjoint blocks, also the empty one, as many joins of nodes with room for a layer as the model has layers, one of them taking ends, leave a network that gets a chain |
| CoordinatorState.NextKeepsInv | eujeno/net/coordinator.py:71-104 | every step keeps loads, reputations, pending maps, waiting calls and issued names right |
| CoordinatorState.EveryInterleaving | eujeno/net/coordinator.py:71-104 | in every interleaving each live connection's load is the number of attempts in flight on it, its reputation is in range, and a call that waits is pending on a live connection |
| CoordinatorState.ClampNeverActs | eujeno/net/coordinator.py:271-274 | when an attempt gives a load back it is at least one: the clamp at zero never acts |
| CoordinatorState.ReputationChanges | eujeno/net/coordinator.py:256-265 | reputations change only when an attempt ends: a success adds 0.5 up to 10 to each live node of its chain, a failure takes 2 down to 0 from the failing node alone |
| CoordinatorState.RatedInAnyRun | eujeno/net/coordinator.py:256-265 | the same at every moment of every run |
| CoordinatorState.OnlyFailuresLower | eujeno/net/coordinator.py:256-265 | over any stretch of any run in which a node stays connected and fails no attempt its reputation does not fall, and rises by at most 0.5 for each attempt on it that succeeds |
| CoordinatorState.LoadChanges | eujeno/net/coordinator.py:248-274 | a load goes up by one when an attempt on the node begins, down by one when it ends, and stays otherwise |
| CoordinatorState.AttemptChanges | eujeno/net/coordinator.py:241-274 | an attempt is in flight with its chain from its beginning to its end |
| CoordinatorState.ConnectionChanges | eujeno/net/coordinator.py:88-100 | a node is connected from its announcement, with nothing pending, no load and reputation 1, until it disconnects |
| CoordinatorState.PendingChanges | eujeno/net/coordinator.py:75-94 | a request is pending on its connection from being sent until its reply arrives or the connection goes away |
| CoordinatorState.WaitingChanges | eujeno/net/coordinator.py:71-82 | a call to a live connection waits on a fresh unresolved future until it goes on or sending raises |
| CoordinatorState.ReplyResolves | eujeno/net/coordinator.py:94-104 | a reply to a pending request is its result; losing the connection makes every request pending on it fail |
| CoordinatorState.ResolvedOnlyByItsReply | eujeno/net/coordinator.py:93-104 | a future is resolved only by the reply that echoes its id on its connection, or by that connection going away |
| CoordinatorState.ResolvedOnce | eujeno/net/coordinator.py:94-95 | in every interleaving a result never changes again |
| CoordinatorState.DisconnectReleasesCalls | eujeno/net/coordinator.py:99-104 | after a disconnect every call waiting on that connection can go on |
| CoordinatorState.App.Connect | eujeno/net/coordinator.py:85-90 | performs the connecting step under a fresh id |
| CoordinatorState.App.Call | eujeno/net/coordinator.py:71-77 | registers a fresh pending call, or fails for a connection that is gone |
| CoordinatorState.App.Return | eujeno/net/coordinator.py:78-82 | a call goes on with exactly the result of its own future |
| CoordinatorState.App.OnMessage | eujeno/net/coordinator.py:91-95 | performs the reply step; unknown and repeated ids change nothing |
| CoordinatorState.App.OnDisconnect | eujeno/net/coordinator.py:99-104 | removes the connection and fails exactly its unresolved pending calls |
| CoordinatorState.App.StartAttempt | eujeno/net/coordinator.py:246-250 | adds one to the load of exactly the connected nodes of the chain |
| CoordinatorState.App.FinishAttempt | eujeno/net/coordinator.py:256-274 | performs the ending step: the ratings of ReputationChanges, then the load of exactly the chain's live nodes is given back |

## Left out

- Floating point: layers are exact functions on abstract vectors, quantisation, dtype and device moves are not modelled, the mask's minimum is one fixed real, and RAM sizes are reals whose rounding for display is left out.
- Sampling and top-k lists: only the greedy path is modelled; replies carry the first token id, not the list behind it.
- The tokenizer, Hugging Face and weight loading, chat templates, tool-call parsing and response streaming; `/v1/chat/completions` is the same failover loop behind another envelope.
- HTTP, WebSocket and tensor framing, timeouts and threads: a hop either takes effect and answers, takes effect without answering, or never arrives.
- SQLite: a row is a record and a write either arrives or is lost whole; created_at, updated_at, recent_jobs, receipts, sampling_json and job ids reused after a restart are not modelled.
- Metrics, node settings, MCP, the web interfaces, the Go launcher and all commands around `plan_auto_stages`, including the two input shapes `stages_from_registry` accepts.
- Text.ParseInt: does not model underscores, other Unicode digits or blanks, or a minus sign, which block keys and stage specifications never contain when printed by this program.
- Registry.Merged: entries are a map, so the insertion order that breaks ties between equal holders is only modelled where routing receives it as a sequence.
- Workers.Swarm: remote workers are values here, and their two classes are proved to do the same to one job's caches; what a worker does to other jobs at the same time is an arbitrary change.
- MlxBackend.MlxNodeState: a layer's cache is a list held by value, not an object advanced in place, so sharing one between two jobs cannot be expressed.
- NodeExec.NodeState.ServeDecode: an unserved block leaves no empty entry for the job, which is stated up to that difference; the HTTP embed, head and delete endpoints are the cases of HandleRequest.
- Blocks.DecoderBlock.RunBlock: inputs and positions of different length, which torch broadcasts or rejects, are excluded here; the executor function answers them by an exception.
- Blocks.SplitIntoBlocks: negative boundaries, which a slice counts from the end, are not modelled.
- Orchestrator.RelayTokens: a peer that comes back with other stages under its url is not modelled; it comes back serving what it served, without caches.
- Allocator.PlanAutoStages: a model without attention heads, a division by zero in the source, is excluded.
- Orchestrator.ResolveChain: the clock is a number of polls that fit before the deadline; a missing refresh is one whose reads all fail.
- Coordinator.AwaitCoverage: the coverage timeout is a number of polls, chosen anew for each attempt; loads and reputations are read as they are; how attempts change them is proved in CoordinatorState, not repeated in the attempt itself.
- Coordinator.Attempt: the load taken on the chain and given back, and the reward or penalty, are App.StartAttempt and App.FinishAttempt of CoordinatorState.
- Coordinator.GenerateWithFailover: as for one attempt; receipts are not modelled.
- MlxBackend.MlxNodeState.RunLayers: one mask built from the slab's first cache serves all its layers in the source; here each layer masks by its own offset, which is the same wherever the offsets agree, as they do on every route (OffsetIsNextPosition).
- Orchestrator.GenerateTokens: the injected transport is inlined as one hop for each op.
- Orchestrator.DistributedGenerateResilient: the set of peer urls is fixed at the start; a peer that is not up yet is one whose hops fail and that the registry does not list.
- Gossip.Act: only self-adverts and relayed adverts travel; a push made up by somebody else, which the endpoint would take, is not among the actions.
- CoordinatorState.NextKeepsInv: a chain is read and its load taken in one step, as no wait lies between them in the code.
