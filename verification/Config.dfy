/** The `[engine]` section, as far as the tuner and the analysis read it. */
module Config {
  datatype Backend = Flex | Wgpu | Rocm | Upstream

  datatype EngineConfig = EngineConfig(
    analysisThreads: nat,
    searchThreadsPerAnalysis: nat,
    nnServerThreads: nat,
    nnMaxBatchSize: nat,
    overrideConfig: string,
    fp16: bool,
    backend: Backend,
    maxVisits: nat,
    autotuneVisits: nat,
    humanModel: string,
    topK: nat,
    screenVisits: nat,
    refineWinrateDelta: real,
    refineScoreDelta: real)
}
