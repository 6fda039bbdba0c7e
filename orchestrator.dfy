/** `setup_output_dir`, the `luks_params` table and `main` of the second
    script. The benchmark library's calls become events of a trace, and
    `os.path.abspath` is a parameter. */
module Orchestrator {

  import opened Wrappers
  import Luks

  const OutputBase := "$HOME/benchmark/fio"

  /** `run_interactive` and `do_luks_tests` as the second script sets them. */
  const RunInteractive := false
  const DoLuksTests := false

  /** As configured, every close takes the header-removal branch (which,
      naming the literal `{crypt_header}`, leaves the header file in place). */
  lemma ConfiguredCloseRunsRm(device: string, closeOk: bool, typed: string)
    ensures Luks.RunsRm(Luks.CloseV2(device, closeOk, RunInteractive, typed))
  {
    Luks.CloseV2NonInteractiveRunsRm(device, closeOk, typed);
  }

  /** The profiles `main` runs, in order. */
  const TestCrypt := ["none", "default", "no-queues", "same-cpu-crypt"]

  /** The extra `cryptsetup open` options per profile. */
  const LuksParams: map<string, string> := map[
    "default" := "",
    "no-queues" := "--perf-no_read_workqueue --perf-no_write_workqueue",
    "sub-crypt-cpus" := "--perf-submit_from_crypt_cpus --perf-no_read_workqueue --perf-no_write_workqueue",
    "same-cpu-crypt" := "--perf-same_cpu_crypt --perf-no_read_workqueue --perf-no_write_workqueue"
  ]

  const OneNvmeDev := ["/dev/nvme0n1"]

  /** The directory the results go to. */
  function SetupOutputDir(abspath: string -> string, enc: bool, encParam: string): string {
    var outputLuks := abspath(if !enc then OutputBase else OutputBase + "_luks");
    if encParam == "" then outputLuks else OutputBase + "_" + encParam
  }

  /** The three outcomes: the plain base made absolute, the `_luks` base
      made absolute, or, whenever a parameter is given, the base with the
      parameter appended and not made absolute. */
  lemma OutputDirCases(abspath: string -> string, enc: bool, encParam: string)
    ensures !enc && encParam == "" ==> SetupOutputDir(abspath, enc, encParam) == abspath(OutputBase)
    ensures enc && encParam == "" ==> SetupOutputDir(abspath, enc, encParam) == abspath(OutputBase + "_luks")
    ensures encParam != "" ==> SetupOutputDir(abspath, enc, encParam) == OutputBase + "_" + encParam
  {
  }

  /** Different profile names give different output directories. */
  lemma OutputDirsDistinct(abspath: string -> string, c: string, c': string)
    requires c != "" && c' != "" && c != c'
    ensures SetupOutputDir(abspath, true, c) != SetupOutputDir(abspath, true, c')
  {
    var n := |OutputBase| + 1;
    assert c == SetupOutputDir(abspath, true, c)[n..];
    assert c' == SetupOutputDir(abspath, true, c')[n..];
  }

  /** Every profile other than "none" has a `luks_params` entry, so the
      lookup in `main` cannot fail. */
  lemma LuksParamsCoverTestCrypt()
    ensures forall c :: c in TestCrypt && c != "none" ==> c in LuksParams
  {
  }

  /** The entries of `test_settings` that `main` writes. */
  datatype Settings = Settings(target: seq<string>, output: string, crypto: Option<string>)

  /** What `main` does through the benchmark library and the luks helpers:
      `display_header`, `setup_luks_dev` with the profile's parameter,
      `run_benchmarks` and `close_luks_dev`. */
  datatype Event = Display(settings: Settings) | Setup(luksParam: string) | Bench(settings: Settings) | Close

  /** `test_settings` before the loop. */
  function InitialSettings(abspath: string -> string): Settings {
    Settings(OneNvmeDev, SetupOutputDir(abspath, false, ""), None)
  }

  /** `test_settings` while profile `c` runs: both written entries are
      overwritten on each pass, so nothing of earlier profiles remains. */
  function ProfileSettings(abspath: string -> string, c: string): Settings {
    Settings(OneNvmeDev, SetupOutputDir(abspath, true, c), Some(c))
  }

  /** The events of one pass of the profile loop. */
  function ProfileEvents(abspath: string -> string, c: string): seq<Event>
    requires c == "none" || c in LuksParams
  {
    var s := ProfileSettings(abspath, c);
    [Display(s)] + (if c != "none" then [Setup(LuksParams[c]), Bench(s), Close] else [Bench(s)])
  }

  predicate KnownProfiles(cs: seq<string>) {
    forall i :: 0 <= i < |cs| ==> cs[i] == "none" || cs[i] in LuksParams
  }

  /** The events of the profile loop over `cs`. */
  function ProfileTrace(abspath: string -> string, cs: seq<string>): seq<Event>
    requires KnownProfiles(cs)
  {
    if cs == [] then [] else ProfileTrace(abspath, cs[..|cs| - 1]) + ProfileEvents(abspath, cs[|cs| - 1])
  }

  /** The events of `main`. */
  function MainTrace(abspath: string -> string, doLuks: bool): seq<Event> {
    var init := InitialSettings(abspath);
    if doLuks then ProfileTrace(abspath, TestCrypt) else [Display(init), Bench(init)]
  }

  /** `main`, with `do_luks_tests` as `doLuks`: the events it causes and
      `test_settings` as it leaves it. */
  method BenchMain(abspath: string -> string, doLuks: bool) returns (trace: seq<Event>, settings: Settings)
    ensures trace == MainTrace(abspath, doLuks)
    ensures settings == if doLuks then ProfileSettings(abspath, TestCrypt[|TestCrypt| - 1]) else InitialSettings(abspath)
  {
    settings := Settings(OneNvmeDev, SetupOutputDir(abspath, false, ""), None);
    trace := [];
    if doLuks {
      LuksParamsCoverTestCrypt();
      for i := 0 to |TestCrypt|
        invariant trace == ProfileTrace(abspath, TestCrypt[..i])
        invariant settings == if i == 0 then InitialSettings(abspath) else ProfileSettings(abspath, TestCrypt[i - 1])
      {
        var cryptopt := TestCrypt[i];
        settings := settings.(crypto := Some(cryptopt));
        settings := settings.(output := SetupOutputDir(abspath, true, cryptopt));
        trace := trace + [Display(settings)];
        if cryptopt != "none" {
          trace := trace + [Setup(LuksParams[cryptopt]), Bench(settings), Close];
        } else {
          trace := trace + [Bench(settings)];
        }
        assert TestCrypt[..i + 1][..i] == TestCrypt[..i];
      }
      assert TestCrypt[..|TestCrypt|] == TestCrypt;
    } else {
      trace := [Display(settings), Bench(settings)];
    }
  }

  /** As the second script is configured, `main` displays and runs the
      benchmarks once, into the absolute plain output directory. */
  lemma ConfiguredMain(abspath: string -> string)
    ensures MainTrace(abspath, DoLuksTests)
            == [Display(Settings(OneNvmeDev, abspath(OutputBase), None)), Bench(Settings(OneNvmeDev, abspath(OutputBase), None))]
  {
  }

  // ----- Setup, run, close -----

  /** Every Setup is followed at once by a Bench and a Close, and every
      Close comes right after a Setup and a Bench. */
  predicate Bracketed(t: seq<Event>) {
    (forall i :: 0 <= i < |t| && t[i].Setup? ==> i + 2 < |t| && t[i + 1].Bench? && t[i + 2].Close?)
    && (forall i :: 0 <= i < |t| && t[i].Close? ==> 2 <= i && t[i - 1].Bench? && t[i - 2].Setup?)
  }

  lemma BracketedConcat(xs: seq<Event>, ys: seq<Event>)
    requires Bracketed(xs) && Bracketed(ys)
    ensures Bracketed(xs + ys)
  {
    var t := xs + ys;
    forall i | 0 <= i < |t| && t[i].Setup?
      ensures i + 2 < |t| && t[i + 1].Bench? && t[i + 2].Close?
    {
      if i < |xs| {
        assert xs[i].Setup?;
      } else {
        assert ys[i - |xs|].Setup?;
      }
    }
    forall i | 0 <= i < |t| && t[i].Close?
      ensures 2 <= i && t[i - 1].Bench? && t[i - 2].Setup?
    {
      if i < |xs| {
        assert xs[i].Close?;
      } else {
        assert ys[i - |xs|].Close?;
      }
    }
  }

  lemma {:induction false} ProfileTraceBracketed(abspath: string -> string, cs: seq<string>)
    requires KnownProfiles(cs)
    ensures Bracketed(ProfileTrace(abspath, cs))
  {
    if cs != [] {
      var init := cs[..|cs| - 1];
      ProfileTraceBracketed(abspath, init);
      BracketedConcat(ProfileTrace(abspath, init), ProfileEvents(abspath, cs[|cs| - 1]));
    }
  }

  /** `main` never runs a luks profile except between its setup and its
      close, and never closes what it did not set up. */
  lemma MainBracketed(abspath: string -> string, doLuks: bool)
    ensures Bracketed(MainTrace(abspath, doLuks))
  {
    if doLuks {
      LuksParamsCoverTestCrypt();
      ProfileTraceBracketed(abspath, TestCrypt);
    }
  }

  // ----- Each run with its own setup -----

  /** The Bench at `p` carries a profile. A "none" run comes right after
      its Display; any other run comes right after the Setup with that
      profile's own luks parameter and right before a Close. */
  predicate RunPaired(t: seq<Event>, p: int)
    requires 0 <= p < |t| && t[p].Bench?
  {
    var c := t[p].settings.crypto;
    c.Some? && 1 <= p
    && (c.value == "none" ==> t[p - 1].Display?)
    && (c.value != "none" ==> c.value in LuksParams && t[p - 1] == Setup(LuksParams[c.value])
                              && p + 1 < |t| && t[p + 1].Close?)
  }

  predicate Paired(t: seq<Event>) {
    forall p :: 0 <= p < |t| && t[p].Bench? ==> RunPaired(t, p)
  }

  lemma PairedConcat(xs: seq<Event>, ys: seq<Event>)
    requires Paired(xs) && Paired(ys)
    ensures Paired(xs + ys)
  {
    var t := xs + ys;
    forall p | 0 <= p < |t| && t[p].Bench?
      ensures RunPaired(t, p)
    {
      if p < |xs| {
        assert xs[p] == t[p] && RunPaired(xs, p);
        assert t[p - 1] == xs[p - 1];
        assert p + 1 < |xs| ==> t[p + 1] == xs[p + 1];
      } else {
        var q := p - |xs|;
        assert ys[q] == t[p] && RunPaired(ys, q);
        assert t[p - 1] == ys[q - 1];
        assert q + 1 < |ys| ==> t[p + 1] == ys[q + 1];
      }
    }
  }

  lemma ProfileEventsPaired(abspath: string -> string, c: string)
    requires c == "none" || c in LuksParams
    ensures Paired(ProfileEvents(abspath, c))
  {
    var s := ProfileSettings(abspath, c);
    if c != "none" {
      assert ProfileEvents(abspath, c) == [Display(s), Setup(LuksParams[c]), Bench(s), Close];
    } else {
      assert ProfileEvents(abspath, c) == [Display(s), Bench(s)];
    }
  }

  lemma {:induction false} ProfileTracePaired(abspath: string -> string, cs: seq<string>)
    requires KnownProfiles(cs)
    ensures Paired(ProfileTrace(abspath, cs))
  {
    if cs != [] {
      var init := cs[..|cs| - 1];
      ProfileTracePaired(abspath, init);
      ProfileEventsPaired(abspath, cs[|cs| - 1]);
      PairedConcat(ProfileTrace(abspath, init), ProfileEvents(abspath, cs[|cs| - 1]));
    }
  }

  /** With luks tests on, each run of a profile other than "none" sits
      between a setup with that profile's own parameter and a close, a
      "none" run directly follows its display, and every setup belongs to
      the run right after it, which is not a "none" run. */
  lemma MainPaired(abspath: string -> string)
    ensures var t := MainTrace(abspath, true);
            forall p :: 0 <= p < |t| && t[p].Bench? ==>
              t[p].settings.crypto.Some? && 1 <= p
              && (t[p].settings.crypto.value == "none" ==> t[p - 1].Display?)
              && (t[p].settings.crypto.value != "none" ==>
                    t[p].settings.crypto.value in LuksParams
                    && t[p - 1] == Setup(LuksParams[t[p].settings.crypto.value])
                    && p + 1 < |t| && t[p + 1].Close?)
    ensures var t := MainTrace(abspath, true);
            forall k :: 0 <= k < |t| && t[k].Setup? ==>
              k + 1 < |t| && t[k + 1].Bench? && t[k + 1].settings.crypto.Some?
              && t[k + 1].settings.crypto.value != "none"
              && t[k + 1].settings.crypto.value in LuksParams
              && t[k] == Setup(LuksParams[t[k + 1].settings.crypto.value])
  {
    LuksParamsCoverTestCrypt();
    var t := MainTrace(abspath, true);
    ProfileTracePaired(abspath, TestCrypt);
    ProfileTraceBracketed(abspath, TestCrypt);
    assert t == ProfileTrace(abspath, TestCrypt);
    forall k | 0 <= k < |t| && t[k].Setup?
      ensures k + 1 < |t| && t[k + 1].Bench? && t[k + 1].settings.crypto.Some?
              && t[k + 1].settings.crypto.value != "none"
              && t[k + 1].settings.crypto.value in LuksParams
              && t[k] == Setup(LuksParams[t[k + 1].settings.crypto.value])
    {
      assert t[k + 1].Bench?;
      assert t[(k + 1) - 1] == t[k];
    }
  }

  // ----- Which profiles run, in which order -----

  /** The profile of every Bench event, in trace order. */
  function BenchProfiles(t: seq<Event>): seq<Option<string>> {
    if t == [] then []
    else BenchProfiles(t[..|t| - 1]) + (if t[|t| - 1].Bench? then [t[|t| - 1].settings.crypto] else [])
  }

  /** The luks parameter of every Setup event, in trace order. */
  function SetupParams(t: seq<Event>): seq<string> {
    if t == [] then []
    else SetupParams(t[..|t| - 1]) + (if t[|t| - 1].Setup? then [t[|t| - 1].luksParam] else [])
  }

  lemma {:induction false} BenchProfilesConcat(xs: seq<Event>, ys: seq<Event>)
    ensures BenchProfiles(xs + ys) == BenchProfiles(xs) + BenchProfiles(ys)
  {
    if ys == [] {
      assert xs + ys == xs;
    } else {
      var init := ys[..|ys| - 1];
      BenchProfilesConcat(xs, init);
      assert (xs + ys)[..|xs + ys| - 1] == xs + init;
      assert (xs + ys)[|xs + ys| - 1] == ys[|ys| - 1];
    }
  }

  lemma {:induction false} SetupParamsConcat(xs: seq<Event>, ys: seq<Event>)
    ensures SetupParams(xs + ys) == SetupParams(xs) + SetupParams(ys)
  {
    if ys == [] {
      assert xs + ys == xs;
    } else {
      var init := ys[..|ys| - 1];
      SetupParamsConcat(xs, init);
      assert (xs + ys)[..|xs + ys| - 1] == xs + init;
      assert (xs + ys)[|xs + ys| - 1] == ys[|ys| - 1];
    }
  }

  /** Each profile name, as the settings' crypto entry. */
  function AsCrypto(cs: seq<string>): (r: seq<Option<string>>)
    ensures |r| == |cs| && forall i :: 0 <= i < |cs| ==> r[i] == Some(cs[i])
  {
    if cs == [] then [] else AsCrypto(cs[..|cs| - 1]) + [Some(cs[|cs| - 1])]
  }

  /** The luks parameters of the profiles other than "none", in order. */
  function LuksParamsOf(cs: seq<string>): seq<string>
    requires KnownProfiles(cs)
  {
    if cs == [] then []
    else LuksParamsOf(cs[..|cs| - 1]) + (if cs[|cs| - 1] != "none" then [LuksParams[cs[|cs| - 1]]] else [])
  }

  /** One pass of a profile with a luks setup. */
  lemma LuksPassLists(s: Settings, p: string)
    ensures BenchProfiles([Display(s), Setup(p), Bench(s), Close]) == [s.crypto]
    ensures SetupParams([Display(s), Setup(p), Bench(s), Close]) == [p]
  {
    var t := [Display(s), Setup(p), Bench(s), Close];
    assert t[..3] == [Display(s), Setup(p), Bench(s)];
    assert t[..3][..2] == [Display(s), Setup(p)];
    assert t[..3][..2][..1] == [Display(s)];
    assert [Display(s)][..0] == [];
    assert BenchProfiles([Display(s)]) == [] && SetupParams([Display(s)]) == [];
    assert BenchProfiles(t[..3][..2]) == [] && SetupParams(t[..3][..2]) == [p];
    assert BenchProfiles(t[..3]) == [s.crypto] && SetupParams(t[..3]) == [p];
  }

  /** One pass of the "none" profile. */
  lemma PlainPassLists(s: Settings)
    ensures BenchProfiles([Display(s), Bench(s)]) == [s.crypto]
    ensures SetupParams([Display(s), Bench(s)]) == []
  {
    assert [Display(s), Bench(s)][..1] == [Display(s)];
    assert [Display(s)][..0] == [];
    assert BenchProfiles([Display(s)]) == [] && SetupParams([Display(s)]) == [];
  }

  lemma ProfileEventsLists(abspath: string -> string, c: string)
    requires c == "none" || c in LuksParams
    ensures BenchProfiles(ProfileEvents(abspath, c)) == [Some(c)]
    ensures SetupParams(ProfileEvents(abspath, c)) == if c != "none" then [LuksParams[c]] else []
  {
    var s := ProfileSettings(abspath, c);
    if c != "none" {
      var p := LuksParams[c];
      assert ProfileEvents(abspath, c) == [Display(s), Setup(p), Bench(s), Close];
      LuksPassLists(s, p);
    } else {
      assert ProfileEvents(abspath, c) == [Display(s), Bench(s)];
      PlainPassLists(s);
    }
  }

  lemma {:induction false} ProfileTraceLists(abspath: string -> string, cs: seq<string>)
    requires KnownProfiles(cs)
    ensures BenchProfiles(ProfileTrace(abspath, cs)) == AsCrypto(cs)
    ensures SetupParams(ProfileTrace(abspath, cs)) == LuksParamsOf(cs)
  {
    if cs != [] {
      var init, last := cs[..|cs| - 1], cs[|cs| - 1];
      ProfileTraceLists(abspath, init);
      ProfileEventsLists(abspath, last);
      BenchProfilesConcat(ProfileTrace(abspath, init), ProfileEvents(abspath, last));
      SetupParamsConcat(ProfileTrace(abspath, init), ProfileEvents(abspath, last));
    }
  }

  /** With luks tests on, the benchmarks run once per profile in
      `test_crypt` order, and the devices are set up with the parameters of
      "default", "no-queues" and "same-cpu-crypt", in that order: "none"
      gets no setup. */
  lemma MainProfileOrder(abspath: string -> string)
    ensures BenchProfiles(MainTrace(abspath, true)) == AsCrypto(TestCrypt)
    ensures SetupParams(MainTrace(abspath, true))
            == [LuksParams["default"], LuksParams["no-queues"], LuksParams["same-cpu-crypt"]]
  {
    LuksParamsCoverTestCrypt();
    ProfileTraceLists(abspath, TestCrypt);
    TestCryptParams();
  }

  lemma TestCryptParams()
    ensures LuksParamsOf(TestCrypt) == [LuksParams["default"], LuksParams["no-queues"], LuksParams["same-cpu-crypt"]]
  {
    var c1, c2, c3 := ["none"], ["none", "default"], ["none", "default", "no-queues"];
    assert c1[..0] == [];
    assert c2[..1] == c1;
    assert c3[..2] == c2;
    assert TestCrypt[..3] == c3;
    assert LuksParamsOf(c1) == [];
    assert LuksParamsOf(c2) == [LuksParams["default"]];
    assert LuksParamsOf(c3) == [LuksParams["default"], LuksParams["no-queues"]];
  }

  /** With luks tests on, every benchmark writes to the base directory with
      the profile name appended, never through `abspath`. */
  lemma {:induction false} ProfileTraceOutputs(abspath: string -> string, cs: seq<string>)
    requires KnownProfiles(cs)
    requires forall i :: 0 <= i < |cs| ==> cs[i] != ""
    ensures forall e :: e in ProfileTrace(abspath, cs) && (e.Bench? || e.Display?)
              ==> e.settings.crypto.Some? && e.settings.output == OutputBase + "_" + e.settings.crypto.value
  {
    if cs != [] {
      var init, last := cs[..|cs| - 1], cs[|cs| - 1];
      ProfileTraceOutputs(abspath, init);
      OutputDirCases(abspath, true, last);
    }
  }

  lemma MainOutputs(abspath: string -> string)
    ensures forall e :: e in MainTrace(abspath, true) && e.Bench?
              ==> e.settings.crypto.Some? && e.settings.output == OutputBase + "_" + e.settings.crypto.value
  {
    LuksParamsCoverTestCrypt();
    ProfileTraceOutputs(abspath, TestCrypt);
    assert MainTrace(abspath, true) == ProfileTrace(abspath, TestCrypt);
  }
}
