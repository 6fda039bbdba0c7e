# fio-stack benchmark driver, modelled in Dafny

The fio-stack scripts drive `fio` benchmarks of NVMe block devices, with and
without LUKS encryption. Two scripts share most of their logic:

- `run-fio-tests-v1.py` generates the benchmark jobs itself (`run_fio_tests`);
- `run-fio-tests-v2.py` hands the sweep to the `bench_fio` library and loops over
  encryption profiles.

This project models the decision logic of both scripts and proves what it
guarantees:

- **Reply parsing** (module `Prompt`, helpers in `Strings`). `yes_or_no` lower-cases
  and strips the typed reply, falls back to the default letter, and decides on the
  first character. The second script answers for itself when not interactive.
- **Job names** (module `JobNames`). These are the f-string names
  `job-{mode}[_{mix}]_iod{iodepth}_numjobs{numjob}_{bs}[_luks_{param}]`, plus a
  parser. The parser's round trip shows the names are unambiguous as long as the
  mode, the block size and the luks parameter hold no `_`.
- **The sweep** (modules `Sweep` and `SweepFacts`). `run_fio_tests` is a method whose
  nested `for` loops append one `JobSpec` per `bench_fio` call. It is proved equal to
  a specification (`Sweep.Calls`) built over the loop combinations. That
  specification's count, membership, uniqueness, ordering, fields and names are
  proved as lemmas. Each loop level is its own method: `RunFioTests` (modes),
  `RunIodepths`, `RunNumjobs`, `RunBlockSizes`, `RunBlock` (the body for one block
  size) and `RunMixes`.
- **LUKS set-up and close** (module `Luks`). `setup_luks_dev` and `close_luks_dev`
  are the same text in both scripts. Each becomes the list of external commands it
  runs. The commands' outcomes (return codes, whether the header file exists, the
  yes/no answer) are inputs.
- **The second script's `main`** (module `Orchestrator`). `setup_output_dir` takes
  `os.path.abspath` as a function parameter. `main` is a method that loops over
  `test_crypt`, updating the settings record and appending events to a trace. Its
  lemmas cover bracketing, order and output directories.

Notes on the code as written:

- **Header removal default.** `close_luks_dev` asks with `yes_or_no(..., False)`,
  so `default_no` is false. A blank reply, or the second script's automatic answer,
  therefore takes the header-removal branch. The second script is not interactive,
  so that branch is always taken: see `Luks.CloseV2NonInteractiveRunsRm`.
- **The header file is never deleted.** The removal branch runs
  `rm -vf '{crypt_header}'`. Without the `f` prefix this names a file literally
  called `{crypt_header}`, so the header file `/var/tmp/luksheader.<device>.img`
  stays in place: see `Luks.CloseLeavesHeader`.
- **One mix-less job.** In `run_fio_tests`, the mix-less call sits after the mix loop.
  So there is exactly one call without a mix per combination even in the mixed mode:
  see `SweepFacts.OnePlainCombo` and `SweepFacts.MixJobsComeFirst`.
- **Literal strings.** Two strings lack the `f` prefix: the device-mapper name
  `'encrypted-{device}'` and the `rm` target `'{crypt_header}'`. They are modelled as
  the literal text they are (`Luks.MapperName`, `Luks.RemoveTarget`), and
  `Luks.LiteralArguments` proves they do not depend on the device: the `dmsetup info`
  probe, the mapping `cryptsetup open` creates and the one `cryptsetup close` closes
  are the same for every device.
- **LUKS parameters.** `luks_param` goes to `cryptsetup open` as a single argument
  vector element. That element is empty for the "default" profile and holds two or
  three space-separated flags for the others.
- **Setup of a prepared device.** Once the header exists and `isLuks` succeeds, no
  format step runs, and a device whose mapping is already open is only probed: see
  `Luks.SetupBranchCases` and `Luks.SetupShape`.

## Model

| member | source | states |
|---|---|---|
| Strings.Lower | run-fio-tests-v1.py:29 | `str.lower` on the reply: same length, each ASCII capital replaced by its small letter, everything else kept |
| Strings.Strip | run-fio-tests-v1.py:29 | `str.strip`: the result is the slice of the input after its maximal leading whitespace run with only whitespace after it, and is empty or starts and ends with a non-whitespace character (Python's whitespace set) |
| Strings.IntRoundTrip | run-fio-tests-v1.py:93 | the decimal rendering of an integer in the f-string parses back to that integer |
| Prompt.YesOrNo | run-fio-tests-v1.py:26-35 | the first script's answer departs from the default only when the reply starts with the other letter; `Prompt.BlankReplyGivesDefault` and `Prompt.FirstLetterDecides` give its value for every reply |
| Prompt.YesOrNoV2 | run-fio-tests-v2.py:60-74 | the second script's answer departs from the default only when it is interactive and the reply starts with the other letter; `Prompt.NonInteractiveAnswersDefault` and `Prompt.InteractiveMatchesFirstScript` give its value |
| Prompt.Reply | run-fio-tests-v1.py:27-29 | the reply after lower-casing, stripping and the `or default_answer` fallback is never empty, so `reply[0]` cannot fail |
| Prompt.BlankReplyGivesDefault | run-fio-tests-v1.py:26-35 | a reply of only whitespace (the empty one too) yields `not default_no` |
| Prompt.FirstLetterDecides | run-fio-tests-v1.py:29-35 | the first non-whitespace character decides: y/Y gives True, n/N gives False, anything else gives `not default_no` |
| Prompt.NonInteractiveAnswersDefault | run-fio-tests-v2.py:60-74 | with `run_interactive` false, `yes_or_no(q, d)` returns `not d` whatever was typed |
| Prompt.InteractiveMatchesFirstScript | run-fio-tests-v2.py:64-74 | when interactive, the second script's `yes_or_no` answers exactly as the first script's |
| JobNames.JobName | run-fio-tests-v1.py:93-110 | a job name starts with `job-{mode}_` and ends with `_luks_{enc_param}` when `enc`; `JobNames.JobNameRoundTrip` shows it determines its parameters |
| JobNames.JobNameJoined | run-fio-tests-v1.py:93-110 | a job name is the pieces `job-{mode}`, optional mix, `iod{n}`, `numjobs{n}`, block size, and `luks`, `{param}` when encrypted, joined by single underscores |
| JobNames.JobNameRoundTrip | run-fio-tests-v1.py:93-110 | parsing a job name gives back mode, mix, iodepth, numjob, block size and the luks parameter exactly when `enc` was set (no `_` in mode, block size or parameter) |
| JobNames.JobNameInjective | run-fio-tests-v1.py:93-110 | with the same `enc` and parameter, different parameters give different job names (no `_` in the modes, block sizes or luks parameter) |
| JobNames.LuksSuffixIffEnc | run-fio-tests-v1.py:94-110 | the `_luks_{enc_param}` suffix is present if and only if `enc` is true, and names with and without it differ (no `_` in mode, block size or parameter) |
| Sweep.MakeJob | run-fio-tests-v1.py:95-121 | the `bench_fio` call for one combination; its fields are characterised by `SweepFacts.SweepJobFields` and its name by `SweepFacts.SweepJobName` |
| Sweep.RunFioTests | run-fio-tests-v1.py:84-121 | the calls of `run_fio_tests` are exactly `Calls(cfg, a)`, and their number is the expected count |
| Sweep.RunIodepths | run-fio-tests-v1.py:87-121 | the iodepth loop for one mode issues the calls of all its combinations in loop order |
| Sweep.RunNumjobs | run-fio-tests-v1.py:88-121 | the numjobs loop for one mode and iodepth issues the calls of all its combinations in loop order |
| Sweep.RunBlockSizes | run-fio-tests-v1.py:89-121 | per block size: the mix calls when the mode is "randrw", then one call without a mix |
| Sweep.RunBlock | run-fio-tests-v1.py:90-121 | the body for one block size: the mix calls (when the mode is "randrw") followed by the call without a mix, exactly the calls of that combination block |
| Sweep.RunMixes | run-fio-tests-v1.py:92-106 | one call per mix value, in the order of `randrw_mix` |
| Sweep.SweepCount | run-fio-tests-v1.py:86-121 | number of calls = \|modes\|·\|iodepths\|·\|numjobs\|·\|blocksizes\| + (occurrences of "randrw")·\|iodepths\|·\|numjobs\|·\|blocksizes\|·\|mixes\| |
| Sweep.V1SweepCount | run-fio-tests-v1.py:10-14 | with the script's lists the sweep makes 108 calls |
| SweepFacts.CombosMembers | run-fio-tests-v1.py:86-121 | a combination is visited if and only if its mode, iodepth, numjob and block size come from the lists and it has a mix only when the mode is "randrw", taken from the mix list |
| SweepFacts.CombosNoDup | run-fio-tests-v1.py:86-121 | when no list repeats a value, no combination is visited twice |
| SweepFacts.OnePlainCombo | run-fio-tests-v1.py:108-121 | for every mode (including "randrw"), iodepth, numjob and block size there is exactly one call without a mix |
| SweepFacts.MixJobsComeFirst | run-fio-tests-v1.py:91-121 | every call with a mix comes before the call without a mix for the same mode, iodepth, numjob and block size |
| SweepFacts.SweepJobFields | run-fio-tests-v1.py:95-121 | call i passes combination i's mode, mix, iodepth and block size, numjobs = numjob · jobsmultiplier, direct = 1, filename = device, runtime = job_run_time |
| SweepFacts.MixOnlyForMixedMode | run-fio-tests-v1.py:91-106 | a call carries `rwmixread` only when the mode is "randrw", and the value is one of the mixes |
| SweepFacts.SweepJobName | run-fio-tests-v1.py:93-110 | each call's name parses back to its own mode, mix, iodepth and block size, the numjob before multiplication, and the luks parameter exactly when `enc` (no `_` in the modes, block sizes or luks parameter) |
| SweepFacts.NamesDiffer | run-fio-tests-v1.py:93-110 | calls for different combinations get different names (no `_` in the modes, block sizes or luks parameter) |
| SweepFacts.SweepNamesDistinct | run-fio-tests-v1.py:84-121 | when no list repeats a value, no two calls share a job name (no `_` in the modes, block sizes or luks parameter) |
| SweepFacts.V1Names | run-fio-tests-v1.py:10-14 | the script's own lists repeat nothing and contain no `_`, so all of its job names differ |
| Luks.HeaderPath | run-fio-tests-v1.py:38 | the header file of a device; `Luks.HeaderPathInjective` shows different devices get different files |
| Luks.SetupBranch | run-fio-tests-v1.py:45-65 | the branch `setup_luks_dev` takes from the probes' answers; `Luks.SetupBranchCases` gives each branch's exact condition |
| Luks.SetupSteps | run-fio-tests-v1.py:37-65 | the commands `setup_luks_dev` runs; characterised by `Luks.SetupShape`, `Luks.SetupHeaderArguments` and `Luks.PassphraseOnlyToCryptsetup` |
| Luks.CloseSteps | run-fio-tests-v1.py:67-82 | the commands `close_luks_dev` runs once the close result and the answer are known; characterised by `Luks.CloseShape` and `Luks.LiteralArguments` |
| Luks.CloseV1 | run-fio-tests-v1.py:67-82 | the first script's close with a typed reply; `Luks.CloseV1BlankRunsRm` shows a blank reply takes the header-removal branch (runs `rm -vf '{crypt_header}'`, which leaves the header file in place) |
| Luks.CloseV2 | run-fio-tests-v2.py:119-134 | the second script's close; `Luks.CloseV2NonInteractiveRunsRm` shows that, not interactive, it always takes the header-removal branch (runs `rm -vf '{crypt_header}'`, which leaves the header file in place) |
| Luks.HeaderPathInjective | run-fio-tests-v1.py:38 | `crypt_header_prefix + device + ".img"` differs for different devices |
| Luks.SetupBranchCases | run-fio-tests-v1.py:45-64 | formats exactly when the header is missing or `isLuks` fails; opens exactly when both checks pass and `dmsetup info` fails; reports "already open" when it succeeds; fails only if the header vanished between the two checks |
| Luks.InconsistentUnreachable | run-fio-tests-v1.py:45-65 | when both existence checks agree, the "something failed" branch is unreachable (same text at run-fio-tests-v2.py:97-117) |
| Luks.SetupShape | run-fio-tests-v1.py:40-62 | `isLuks` runs first; the header is allocated only in the format branch; the device is opened only in the open branch; an already open device is only probed |
| Luks.SetupHeaderArguments | run-fio-tests-v1.py:38-57 | every `--header` argument and the `fallocate` target is the device's header path |
| Luks.PassphraseOnlyToCryptsetup | run-fio-tests-v1.py:50-58 | the passphrase is fed only to `cryptsetup luksFormat` and `cryptsetup open` |
| Luks.CloseShape | run-fio-tests-v1.py:73-82 | there is a pause exactly when `cryptsetup close` fails, and `rm` runs exactly when the answer is yes |
| Luks.CloseLeavesHeader | run-fio-tests-v1.py:72-82 | the device's header path is the argument of no command the close runs, the `rm` step included, so the header file stays in place |
| Luks.CloseV1BlankRunsRm | run-fio-tests-v1.py:80-81 | in the first script a blank reply takes the header-removal branch (the default is yes): it runs `rm -vf '{crypt_header}'`, which leaves the header file in place |
| Luks.CloseV2NonInteractiveRunsRm | run-fio-tests-v2.py:132-134 | in the second script, not interactive, the header-removal branch is always taken (it runs `rm -vf '{crypt_header}'`, which leaves the header file in place) |
| Luks.LiteralArguments | run-fio-tests-v1.py:55-81 | `cryptsetup close` gets the same mapper name for every device; in the open branch the `dmsetup info` probe is the same for every device and `cryptsetup open` creates the very mapping close removes; `rm` is never given the header path |
| Orchestrator.SetupOutputDir | run-fio-tests-v2.py:82-87 | the results directory; `Orchestrator.OutputDirCases` gives its three outcomes and `Orchestrator.OutputDirsDistinct` their distinctness |
| Orchestrator.OutputDirCases | run-fio-tests-v2.py:82-87 | no enc and empty parameter gives `abspath(output_base)`; enc and empty parameter gives `abspath(output_base + "_luks")`; a non-empty parameter gives `output_base + "_" + param` without abspath |
| Orchestrator.OutputDirsDistinct | run-fio-tests-v2.py:84-85 | distinct non-empty profile names get distinct output directories |
| Orchestrator.LuksParamsCoverTestCrypt | run-fio-tests-v2.py:54-58 | every entry of `test_crypt` other than "none" is a key of `luks_params`, so the lookup in `main` never fails |
| Orchestrator.BenchMain | run-fio-tests-v2.py:189-219 | `main`'s events are `MainTrace`, and `test_settings` is left holding the last profile (or the initial settings without luks tests) |
| Orchestrator.ConfiguredMain | run-fio-tests-v2.py:200-219 | as configured (`do_luks_tests` false), `main` displays and runs the benchmarks once, into `abspath(output_base)` |
| Orchestrator.ConfiguredCloseRunsRm | run-fio-tests-v2.py:119-134 | as configured (`run_interactive` false), every close takes the header-removal branch (runs `rm -vf '{crypt_header}'`, which leaves the header file in place) |
| Orchestrator.MainBracketed | run-fio-tests-v2.py:206-216 | every setup is followed at once by a benchmark run and a close, and every close follows a setup and a run |
| Orchestrator.MainProfileOrder | run-fio-tests-v2.py:206-216 | the benchmarks run once per profile in `test_crypt` order, and the setups use the parameters of "default", "no-queues", "same-cpu-crypt" in that order |
| Orchestrator.MainPaired | run-fio-tests-v2.py:206-216 | each run of a profile other than "none" comes right after a setup with that profile's own luks parameter and right before a close; a "none" run comes right after its display; every setup belongs to the run right after it, which is never a "none" run |
| Orchestrator.MainOutputs | run-fio-tests-v2.py:207-209 | with luks tests, every run writes to `output_base + "_" + profile`, never through abspath |

## Left out

- External commands (`cryptsetup`, `dmsetup`, `fallocate`, `rm`) are steps in a
  list, not run. Their return codes are boolean inputs. Their output and what they do
  to the machine are not modelled.
- `os.path.exists` is two boolean inputs, one per call. This is why
  `Luks.SetupBranchCases` can show when the third branch is reachable. `os.stat` and
  `blkdev_exists` are not part of this model.
- `input()` is a parameter: the typed text. `print` output and the prompt suffixes
  (` [y/N]: `) are not modelled.
- `str.lower` is modelled for ASCII letters only. Other Unicode case mappings are
  left out.
- `testmode is "randrw"` is modelled as string equality. This holds because CPython
  interns both literals; it is not a guarantee of the language.
- The `fio_plot` / `bench_fio` library is foreign code:
  - a `bench_fio(...)` call becomes its keyword arguments as a `JobSpec`;
  - `display_header` and `run_benchmarks` become events;
  - `checks.*`, `generate_test_list` and `make_directory` are not modelled;
  - `defaults.get_default_settings()` is not part of this model, so the settings
    record holds only the entries `main` writes.
- `os.path.abspath` is an uninterpreted function parameter.
- The first script's `main` (run-fio-tests-v1.py:123-145) only calls the modelled
  functions over hard-coded devices.
- The second script's commented-out `run_fio_tests` (run-fio-tests-v2.py:136-187) is
  dead code.
- At run-fio-tests-v2.py:212, the second script passes the `test_settings`
  dictionary to `setup_luks_dev` where a device name is expected. Building the header
  path from it raises a TypeError, so with luks tests on the script stops at the
  first profile other than "none". The `Setup` event records only the call and its
  luks parameter. `Orchestrator.BenchMain` (its trace and final settings with luks
  tests on), `Orchestrator.MainBracketed`, `Orchestrator.MainPaired`,
  `Orchestrator.MainProfileOrder` and `Orchestrator.MainOutputs` therefore describe
  `main` as if `setup_luks_dev` accepted the dictionary.
- The `test_settings["device"]` lookup at close depends on the library's defaults. The
  `Close` event carries no device.
- Luks.SetupHeaderArguments: assumes the luks parameter is not itself `--header`.
  Such a parameter would be read as the flag.
- SweepFacts.CombosNoDup: assumes that no loop list repeats a value. With repeats the
  script does visit a combination twice.
- SweepFacts.SweepNamesDistinct: assumes that no loop list repeats a value, for the
  same reason.
- SweepFacts.OnePlainCombo: assumes that the modes, iodepths, numjobs and block
  sizes repeat no value. With a repeat the script makes the same mix-less call twice.
- SweepFacts.MixJobsComeFirst: assumes the same of those four lists. With a repeated
  value, a later pass's mix calls come after an earlier pass's mix-less call.
- JobNames.JobNameRoundTrip: assumes that mode, block size and luks parameter contain
  no `_`. With an underscore, names can collide: mode "randrw" with mix 1 and mode
  "randrw_1" without a mix both give `job-randrw_1_iod1_numjobs1_4k`.
- JobNames.JobNameInjective: assumes no `_` in either mode, block size or the luks
  parameter, and compares names with the same `enc` and parameter.
- JobNames.LuksSuffixIffEnc: assumes no `_` in mode, block size or parameter. Without
  that, a name built without `enc` can still end in `_luks_{param}`, for example with
  block size `4k_luks_x`.
- SweepFacts.SweepJobName: assumes no `_` in the modes, the block sizes or the luks
  parameter, as the round trip does.
- SweepFacts.NamesDiffer: assumes no `_` in the modes, the block sizes or the luks
  parameter.
- SweepFacts.SweepNamesDistinct: also assumes no `_` in the modes, the block sizes or
  the luks parameter. With one, distinct values such as "randrw" with a mix and
  "randrw_1" can give the same name.
- Whether closing a device and setting it up again restores its mapping depends on
  what `cryptsetup` does to the device. It is not modelled.
