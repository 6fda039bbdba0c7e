/** `run_fio_tests` of the first script: the nested loops over mode,
    iodepth, numjobs and block size, with an inner loop over the read/write
    mixes for the mixed mode, that issue one `bench_fio` call per step. Each
    call is modelled as the job specification it receives. */
module Sweep {

  import opened Wrappers
  import opened JobNames

  /** The module-level test parameters that `run_fio_tests` iterates over. */
  datatype SweepConfig = SweepConfig(modes: seq<string>, mixes: seq<int>, iodepths: seq<int>,
                                     numjobs: seq<int>, blocksizes: seq<string>, runtime: int)

  /** The values the first script defines (`test_modes`, `randrw_mix`,
      `iodepths`, `numjobs`, `blocksizes`, `job_run_time`). */
  const V1Config := SweepConfig(["read", "write", "randrw"], [50, 30, 70], [1, 8, 16],
                                [1, 3, 8], ["4k", "4M"], 60)

  /** The arguments of `run_fio_tests`. */
  datatype SweepArgs = SweepArgs(device: string, enc: bool, encParam: string, jobsMultiplier: int)

  /** The keyword arguments of one `bench_fio` call; `rwmixread` is absent
      for the call after the mix loop. */
  datatype JobSpec = JobSpec(name: string, mode: string, rwmixread: Option<int>, direct: int,
                             filename: string, iodepth: int, numjobs: int, runtime: int, bs: string)

  /** The loop variables at one `bench_fio` call: mode, mix (inside the mix
      loop only), iodepth, numjob and block size. */
  datatype Combo = Combo(mode: string, mix: Option<int>, iodepth: int, numjob: int, bs: string)

  /** The only mode that gets the inner mix loop. */
  const MixedMode := "randrw"

  /** The call issued for one combination. */
  function MakeJob(cfg: SweepConfig, a: SweepArgs, c: Combo): JobSpec {
    JobSpec(JobName(c.mode, c.mix, c.iodepth, c.numjob, c.bs, a.enc, a.encParam),
            c.mode, c.mix, 1, a.device, c.iodepth, c.numjob * a.jobsMultiplier, cfg.runtime, c.bs)
  }

  // The combinations in loop order, one function per loop level; each
  // level is built from the left so that a loop that appends follows it.

  function MixCombos(mode: string, iod: int, nj: int, bs: string, mixes: seq<int>): seq<Combo> {
    if mixes == [] then []
    else MixCombos(mode, iod, nj, bs, mixes[..|mixes| - 1]) + [Combo(mode, Some(mixes[|mixes| - 1]), iod, nj, bs)]
  }

  /** One pass of the block-size loop body: the mix jobs (mixed mode only),
      then the job without a mix. */
  function ComboBlock(cfg: SweepConfig, mode: string, iod: int, nj: int, bs: string): seq<Combo> {
    (if mode == MixedMode then MixCombos(mode, iod, nj, bs, cfg.mixes) else [])
    + [Combo(mode, None, iod, nj, bs)]
  }

  function BlockSizeCombos(cfg: SweepConfig, mode: string, iod: int, nj: int, bss: seq<string>): seq<Combo> {
    if bss == [] then []
    else BlockSizeCombos(cfg, mode, iod, nj, bss[..|bss| - 1]) + ComboBlock(cfg, mode, iod, nj, bss[|bss| - 1])
  }

  function NumjobCombos(cfg: SweepConfig, mode: string, iod: int, njs: seq<int>): seq<Combo> {
    if njs == [] then []
    else NumjobCombos(cfg, mode, iod, njs[..|njs| - 1]) + BlockSizeCombos(cfg, mode, iod, njs[|njs| - 1], cfg.blocksizes)
  }

  function IodepthCombos(cfg: SweepConfig, mode: string, iods: seq<int>): seq<Combo> {
    if iods == [] then []
    else IodepthCombos(cfg, mode, iods[..|iods| - 1]) + NumjobCombos(cfg, mode, iods[|iods| - 1], cfg.numjobs)
  }

  function ModeCombos(cfg: SweepConfig, modes: seq<string>): seq<Combo> {
    if modes == [] then []
    else ModeCombos(cfg, modes[..|modes| - 1]) + IodepthCombos(cfg, modes[|modes| - 1], cfg.iodepths)
  }

  /** Every combination, in the order of the calls. */
  function Combos(cfg: SweepConfig): seq<Combo> {
    ModeCombos(cfg, cfg.modes)
  }

  // One more iteration of a loop adds the combinations of its body.

  lemma ModeCombosStep(cfg: SweepConfig, modes: seq<string>, i: nat)
    requires i < |modes|
    ensures ModeCombos(cfg, modes[..i + 1]) == ModeCombos(cfg, modes[..i]) + IodepthCombos(cfg, modes[i], cfg.iodepths)
  {
    assert modes[..i + 1][..i] == modes[..i];
  }

  lemma IodepthCombosStep(cfg: SweepConfig, mode: string, iods: seq<int>, j: nat)
    requires j < |iods|
    ensures IodepthCombos(cfg, mode, iods[..j + 1])
            == IodepthCombos(cfg, mode, iods[..j]) + NumjobCombos(cfg, mode, iods[j], cfg.numjobs)
  {
    assert iods[..j + 1][..j] == iods[..j];
  }

  lemma BlockSizeCombosStep(cfg: SweepConfig, mode: string, iod: int, nj: int, bss: seq<string>, l: nat)
    requires l < |bss|
    ensures BlockSizeCombos(cfg, mode, iod, nj, bss[..l + 1])
            == BlockSizeCombos(cfg, mode, iod, nj, bss[..l]) + ComboBlock(cfg, mode, iod, nj, bss[l])
  {
    assert bss[..l + 1][..l] == bss[..l];
  }

  lemma NumjobCombosStep(cfg: SweepConfig, mode: string, iod: int, njs: seq<int>, k: nat)
    requires k < |njs|
    ensures NumjobCombos(cfg, mode, iod, njs[..k + 1])
            == NumjobCombos(cfg, mode, iod, njs[..k]) + BlockSizeCombos(cfg, mode, iod, njs[k], cfg.blocksizes)
  {
    assert njs[..k + 1][..k] == njs[..k];
  }

  /** The calls for a list of combinations. */
  function Jobs(job: Combo -> JobSpec, cs: seq<Combo>): seq<JobSpec> {
    if cs == [] then [] else Jobs(job, cs[..|cs| - 1]) + [job(cs[|cs| - 1])]
  }

  /** MakeJob for one call of `run_fio_tests`. */
  function JobMaker(cfg: SweepConfig, a: SweepArgs): Combo -> JobSpec {
    c => MakeJob(cfg, a, c)
  }

  lemma JobsSnoc(job: Combo -> JobSpec, cs: seq<Combo>, c: Combo)
    ensures Jobs(job, cs + [c]) == Jobs(job, cs) + [job(c)]
  {
    assert (cs + [c])[..|cs|] == cs;
  }

  lemma {:induction false} JobsAppend(job: Combo -> JobSpec, xs: seq<Combo>, ys: seq<Combo>)
    ensures Jobs(job, xs + ys) == Jobs(job, xs) + Jobs(job, ys)
  {
    if ys == [] {
      assert xs + ys == xs;
    } else {
      var init := ys[..|ys| - 1];
      JobsAppend(job, xs, init);
      assert (xs + ys)[..|xs + ys| - 1] == xs + init;
      assert (xs + ys)[|xs + ys| - 1] == ys[|ys| - 1];
    }
  }

  /** The i-th call is the one for the i-th combination. */
  lemma {:induction false} JobsAt(job: Combo -> JobSpec, cs: seq<Combo>)
    ensures |Jobs(job, cs)| == |cs|
    ensures forall i :: 0 <= i < |cs| ==> Jobs(job, cs)[i] == job(cs[i])
  {
    if cs != [] {
      JobsAt(job, cs[..|cs| - 1]);
    }
  }

  /** The calls `run_fio_tests(a.device, a.enc, a.encParam, a.jobsMultiplier)` issues. */
  function Calls(cfg: SweepConfig, a: SweepArgs): seq<JobSpec> {
    Jobs(JobMaker(cfg, a), Combos(cfg))
  }

  /** The number of calls one pass of the block-size loop body makes. */
  function BlockLength(cfg: SweepConfig, mode: string): nat {
    (if mode == MixedMode then |cfg.mixes| else 0) + 1
  }

  /** The number of calls: one per (mode, iodepth, numjob, block size), and
      one more per mix for every occurrence of the mixed mode. */
  function ExpectedCount(cfg: SweepConfig): int {
    var k := |cfg.iodepths| * |cfg.numjobs| * |cfg.blocksizes|;
    |cfg.modes| * k + multiset(cfg.modes)[MixedMode] * k * |cfg.mixes|
  }

  /** `run_fio_tests`: the loop over the modes. Each level of its nested
      loops is a method of its own: RunIodepths, RunNumjobs, RunBlockSizes,
      RunBlock (the body for one block size) and RunMixes. */
  method RunFioTests(cfg: SweepConfig, a: SweepArgs) returns (jobs: seq<JobSpec>)
    ensures jobs == Calls(cfg, a)
    ensures |jobs| == ExpectedCount(cfg)
  {
    jobs := [];
    for i := 0 to |cfg.modes|
      invariant jobs == Jobs(JobMaker(cfg, a), ModeCombos(cfg, cfg.modes[..i]))
    {
      var testmode := cfg.modes[i];
      var sub := RunIodepths(cfg, a, testmode);
      JobsAppend(JobMaker(cfg, a), ModeCombos(cfg, cfg.modes[..i]), IodepthCombos(cfg, testmode, cfg.iodepths));
      jobs := jobs + sub;
      ModeCombosStep(cfg, cfg.modes, i);
    }
    assert cfg.modes[..|cfg.modes|] == cfg.modes;
    SweepCount(cfg, a);
  }

  /** The iodepth loop of `run_fio_tests` for one mode. */
  method RunIodepths(cfg: SweepConfig, a: SweepArgs, testmode: string) returns (jobs: seq<JobSpec>)
    ensures jobs == Jobs(JobMaker(cfg, a), IodepthCombos(cfg, testmode, cfg.iodepths))
  {
    jobs := [];
    for j := 0 to |cfg.iodepths|
      invariant jobs == Jobs(JobMaker(cfg, a), IodepthCombos(cfg, testmode, cfg.iodepths[..j]))
    {
      var iodepth := cfg.iodepths[j];
      var sub := RunNumjobs(cfg, a, testmode, iodepth);
      JobsAppend(JobMaker(cfg, a), IodepthCombos(cfg, testmode, cfg.iodepths[..j]),
                 NumjobCombos(cfg, testmode, iodepth, cfg.numjobs));
      jobs := jobs + sub;
      IodepthCombosStep(cfg, testmode, cfg.iodepths, j);
    }
    assert cfg.iodepths[..|cfg.iodepths|] == cfg.iodepths;
  }

  /** The numjobs loop of `run_fio_tests` for one mode and iodepth. */
  method RunNumjobs(cfg: SweepConfig, a: SweepArgs, testmode: string, iodepth: int) returns (jobs: seq<JobSpec>)
    ensures jobs == Jobs(JobMaker(cfg, a), NumjobCombos(cfg, testmode, iodepth, cfg.numjobs))
  {
    jobs := [];
    for k := 0 to |cfg.numjobs|
      invariant jobs == Jobs(JobMaker(cfg, a), NumjobCombos(cfg, testmode, iodepth, cfg.numjobs[..k]))
    {
      var numjob := cfg.numjobs[k];
      var sub := RunBlockSizes(cfg, a, testmode, iodepth, numjob);
      JobsAppend(JobMaker(cfg, a), NumjobCombos(cfg, testmode, iodepth, cfg.numjobs[..k]),
                 BlockSizeCombos(cfg, testmode, iodepth, numjob, cfg.blocksizes));
      jobs := jobs + sub;
      NumjobCombosStep(cfg, testmode, iodepth, cfg.numjobs, k);
    }
    assert cfg.numjobs[..|cfg.numjobs|] == cfg.numjobs;
  }

  /** The block-size loop of `run_fio_tests` for one mode, iodepth and
      numjob. */
  method RunBlockSizes(cfg: SweepConfig, a: SweepArgs, testmode: string, iodepth: int, numjob: int)
    returns (jobs: seq<JobSpec>)
    ensures jobs == Jobs(JobMaker(cfg, a), BlockSizeCombos(cfg, testmode, iodepth, numjob, cfg.blocksizes))
  {
    jobs := [];
    for l := 0 to |cfg.blocksizes|
      invariant jobs == Jobs(JobMaker(cfg, a), BlockSizeCombos(cfg, testmode, iodepth, numjob, cfg.blocksizes[..l]))
    {
      var blocksize := cfg.blocksizes[l];
      var sub := RunBlock(cfg, a, testmode, iodepth, numjob, blocksize);
      JobsAppend(JobMaker(cfg, a), BlockSizeCombos(cfg, testmode, iodepth, numjob, cfg.blocksizes[..l]),
                 ComboBlock(cfg, testmode, iodepth, numjob, blocksize));
      jobs := jobs + sub;
      BlockSizeCombosStep(cfg, testmode, iodepth, numjob, cfg.blocksizes, l);
    }
    assert cfg.blocksizes[..|cfg.blocksizes|] == cfg.blocksizes;
  }

  /** The body of the block-size loop: for the mixed mode the calls of
      RunMixes, then the call without a mix. */
  method RunBlock(cfg: SweepConfig, a: SweepArgs, testmode: string, iodepth: int, numjob: int, blocksize: string)
    returns (jobs: seq<JobSpec>)
    ensures jobs == Jobs(JobMaker(cfg, a), ComboBlock(cfg, testmode, iodepth, numjob, blocksize))
  {
    jobs := [];
    if testmode == MixedMode {
      jobs := RunMixes(cfg, a, testmode, iodepth, numjob, blocksize);
    }
    ghost var mixJobs := jobs;
    var jobname := BaseName(testmode, None, iodepth, numjob, blocksize);
    if a.enc { jobname := jobname + "_luks_" + a.encParam; }
    var job := JobSpec(jobname, testmode, None, 1, a.device, iodepth,
                       numjob * a.jobsMultiplier, cfg.runtime, blocksize);
    jobs := jobs + [job];
    assert job == MakeJob(cfg, a, Combo(testmode, None, iodepth, numjob, blocksize));
    ComboBlockJobs(cfg, a, testmode, iodepth, numjob, blocksize);
  }

  /** The calls of one pass of the block-size loop body. */
  lemma ComboBlockJobs(cfg: SweepConfig, a: SweepArgs, mode: string, iod: int, nj: int, bs: string)
    ensures Jobs(JobMaker(cfg, a), ComboBlock(cfg, mode, iod, nj, bs))
            == (if mode == MixedMode then Jobs(JobMaker(cfg, a), MixCombos(mode, iod, nj, bs, cfg.mixes)) else [])
               + [MakeJob(cfg, a, Combo(mode, None, iod, nj, bs))]
  {
    var mixPart := if mode == MixedMode then MixCombos(mode, iod, nj, bs, cfg.mixes) else [];
    JobsSnoc(JobMaker(cfg, a), mixPart, Combo(mode, None, iod, nj, bs));
  }

  /** The mix loop of `run_fio_tests`: one call per mix, in order. */
  method RunMixes(cfg: SweepConfig, a: SweepArgs, testmode: string, iodepth: int, numjob: int, blocksize: string)
    returns (jobs: seq<JobSpec>)
    ensures jobs == Jobs(JobMaker(cfg, a), MixCombos(testmode, iodepth, numjob, blocksize, cfg.mixes))
  {
    jobs := [];
    for m := 0 to |cfg.mixes|
      invariant jobs == Jobs(JobMaker(cfg, a), MixCombos(testmode, iodepth, numjob, blocksize, cfg.mixes[..m]))
    {
      var mix := cfg.mixes[m];
      var jobname := BaseName(testmode, Some(mix), iodepth, numjob, blocksize);
      if a.enc { jobname := jobname + "_luks_" + a.encParam; }
      var job := JobSpec(jobname, testmode, Some(mix), 1, a.device, iodepth,
                         numjob * a.jobsMultiplier, cfg.runtime, blocksize);
      assert job == MakeJob(cfg, a, Combo(testmode, Some(mix), iodepth, numjob, blocksize));
      MixJobsStep(cfg, a, testmode, iodepth, numjob, blocksize, cfg.mixes, m);
      jobs := jobs + [job];
    }
    assert cfg.mixes[..|cfg.mixes|] == cfg.mixes;
  }

  /** One more pass of the mix loop adds the call for the next mix. */
  lemma MixJobsStep(cfg: SweepConfig, a: SweepArgs, mode: string, iod: int, nj: int, bs: string,
                    mixes: seq<int>, m: nat)
    requires m < |mixes|
    ensures Jobs(JobMaker(cfg, a), MixCombos(mode, iod, nj, bs, mixes[..m + 1]))
            == Jobs(JobMaker(cfg, a), MixCombos(mode, iod, nj, bs, mixes[..m]))
               + [MakeJob(cfg, a, Combo(mode, Some(mixes[m]), iod, nj, bs))]
  {
    assert mixes[..m + 1][..m] == mixes[..m];
    JobsSnoc(JobMaker(cfg, a), MixCombos(mode, iod, nj, bs, mixes[..m]), Combo(mode, Some(mixes[m]), iod, nj, bs));
  }

  // ----- How many calls -----

  lemma {:induction false} MixCombosLength(mode: string, iod: int, nj: int, bs: string, mixes: seq<int>)
    ensures |MixCombos(mode, iod, nj, bs, mixes)| == |mixes|
  {
    if mixes != [] {
      MixCombosLength(mode, iod, nj, bs, mixes[..|mixes| - 1]);
    }
  }

  lemma MulStep(n: int, b: int)
    ensures (n - 1) * b + b == n * b
  {
  }

  lemma {:induction false} BlockSizeCombosLength(cfg: SweepConfig, mode: string, iod: int, nj: int, bss: seq<string>)
    ensures |BlockSizeCombos(cfg, mode, iod, nj, bss)| == |bss| * BlockLength(cfg, mode)
  {
    if bss != [] {
      BlockSizeCombosLength(cfg, mode, iod, nj, bss[..|bss| - 1]);
      MixCombosLength(mode, iod, nj, bss[|bss| - 1], cfg.mixes);
      MulStep(|bss|, BlockLength(cfg, mode));
    }
  }

  lemma {:induction false} NumjobCombosLength(cfg: SweepConfig, mode: string, iod: int, njs: seq<int>)
    ensures |NumjobCombos(cfg, mode, iod, njs)| == |njs| * (|cfg.blocksizes| * BlockLength(cfg, mode))
  {
    if njs != [] {
      NumjobCombosLength(cfg, mode, iod, njs[..|njs| - 1]);
      BlockSizeCombosLength(cfg, mode, iod, njs[|njs| - 1], cfg.blocksizes);
      MulStep(|njs|, |cfg.blocksizes| * BlockLength(cfg, mode));
    }
  }

  lemma {:induction false} IodepthCombosLength(cfg: SweepConfig, mode: string, iods: seq<int>)
    ensures |IodepthCombos(cfg, mode, iods)| == |iods| * (|cfg.numjobs| * (|cfg.blocksizes| * BlockLength(cfg, mode)))
  {
    if iods != [] {
      IodepthCombosLength(cfg, mode, iods[..|iods| - 1]);
      NumjobCombosLength(cfg, mode, iods[|iods| - 1], cfg.numjobs);
      MulStep(|iods|, |cfg.numjobs| * (|cfg.blocksizes| * BlockLength(cfg, mode)));
    }
  }

  /** The calls for one mode: every (iodepth, numjob, block size) once, and
      once more per mix when the mode is the mixed mode. */
  lemma ModeLength(cfg: SweepConfig, mode: string)
    ensures var k := |cfg.iodepths| * |cfg.numjobs| * |cfg.blocksizes|;
            |IodepthCombos(cfg, mode, cfg.iodepths)|
            == k + (if mode == MixedMode then 1 else 0) * k * |cfg.mixes|
  {
    IodepthCombosLength(cfg, mode, cfg.iodepths);
    var i, n, b := |cfg.iodepths|, |cfg.numjobs|, |cfg.blocksizes|;
    var x := if mode == MixedMode then |cfg.mixes| else 0;
    assert BlockLength(cfg, mode) == x + 1;
    ProductOfSum(i, n, b, x);
  }

  lemma ProductOfSum(i: nat, n: nat, b: nat, x: nat)
    ensures i * (n * (b * (x + 1))) == i * n * b + i * n * b * x
  {
    assert b * (x + 1) == b * x + b;
    assert n * (b * x + b) == n * b * x + n * b;
    assert i * (n * b * x + n * b) == i * (n * b * x) + i * (n * b);
  }

  lemma {:induction false} ModeCombosLength(cfg: SweepConfig, modes: seq<string>)
    ensures var k := |cfg.iodepths| * |cfg.numjobs| * |cfg.blocksizes|;
            |ModeCombos(cfg, modes)| == |modes| * k + multiset(modes)[MixedMode] * k * |cfg.mixes|
  {
    if modes != [] {
      var k := |cfg.iodepths| * |cfg.numjobs| * |cfg.blocksizes|;
      var init, last := modes[..|modes| - 1], modes[|modes| - 1];
      ModeCombosLength(cfg, init);
      ModeLength(cfg, last);
      var e := if last == MixedMode then 1 else 0;
      MixedCountStep(modes);
      CountStep(|init|, multiset(init)[MixedMode], e, k, |cfg.mixes|);
    }
  }

  lemma MixedCountStep(modes: seq<string>)
    requires modes != []
    ensures multiset(modes)[MixedMode]
            == multiset(modes[..|modes| - 1])[MixedMode] + (if modes[|modes| - 1] == MixedMode then 1 else 0)
  {
    assert modes == modes[..|modes| - 1] + [modes[|modes| - 1]];
  }

  lemma CountStep(n: int, m: int, e: int, k: int, x: int)
    ensures n * k + m * k * x + (k + e * k * x) == (n + 1) * k + (m + e) * k * x
  {
    assert (m + e) * k * x == m * k * x + e * k * x;
  }

  /** The number of calls `run_fio_tests` makes. */
  lemma SweepCount(cfg: SweepConfig, a: SweepArgs)
    ensures |Calls(cfg, a)| == ExpectedCount(cfg)
  {
    ModeCombosLength(cfg, cfg.modes);
    JobsAt(JobMaker(cfg, a), Combos(cfg));
  }

  /** With the first script's parameters: 3·3·3·2 calls without a mix and
      3·3·2·3 more for "randrw", 108 in all. */
  lemma V1SweepCount(a: SweepArgs)
    ensures |Calls(V1Config, a)| == 108
  {
    SweepCount(V1Config, a);
    V1ExpectedCount();
  }

  lemma V1ExpectedCount()
    ensures ExpectedCount(V1Config) == 108
  {
    var modes := V1Config.modes;
    assert modes == ["read", "write"] + ["randrw"];
    assert multiset(modes)[MixedMode] == 1;
  }
}
