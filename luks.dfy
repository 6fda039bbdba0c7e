/** `setup_luks_dev` and `close_luks_dev`, the same text in both scripts.
    Each external command is a step of the returned list; what the commands
    report (return codes, whether the header file exists) comes in as
    booleans. */
module Luks {

  import opened Wrappers
  import opened Strings
  import opened Prompt

  const CryptHeaderPrefix := "/var/tmp/luksheader."
  const DevicePrefix := "/dev/"
  const CryptPass := "correcthorsebatterystaple"

  /** The device-mapper name handed to `dmsetup` and `cryptsetup`. The
      string has no `f` prefix in the source, so it stays the literal
      text below whatever the device is. */
  const MapperName := "encrypted-{device}"

  /** The file `rm -vf` is given in `close_luks_dev`: again a literal
      without the `f` prefix. */
  const RemoveTarget := "{crypt_header}"

  /** One external effect: a command with its argument vector and the text
      fed on its standard input, a question put through `yes_or_no`, or a
      pause until Enter is pressed. */
  datatype Step =
    | Exec(argv: seq<string>, stdin: Option<string>)
    | Ask(question: string, defaultNo: bool)
    | Pause

  /** The detached LUKS header file of a device. */
  function HeaderPath(device: string): string {
    CryptHeaderPrefix + device + ".img"
  }

  /** Different devices get different header files. */
  lemma HeaderPathInjective(d: string, d': string)
    ensures HeaderPath(d) == HeaderPath(d') ==> d == d'
  {
    if HeaderPath(d) == HeaderPath(d') {
      var n := |CryptHeaderPrefix|;
      assert d == HeaderPath(d)[n..n + |d|];
    }
  }

  /** The branch `setup_luks_dev` takes. */
  datatype SetupAction = Format | Open | AlreadyOpen | Inconsistent

  /** The branch taken. The header's existence is asked twice, once per
      guard, so `headerExists` is the first answer and `headerStillExists`
      the second; `isLuksOk` is the `isLuks` return code being 0, and
      `isOpenOk` that of `dmsetup info` (only asked on the second branch). */
  function SetupBranch(headerExists: bool, isLuksOk: bool, headerStillExists: bool, isOpenOk: bool): SetupAction {
    if !headerExists || !isLuksOk then Format
    else if headerStillExists && isLuksOk then (if !isOpenOk then Open else AlreadyOpen)
    else Inconsistent
  }

  /** Each branch and exactly when it is taken. */
  lemma SetupBranchCases(h: bool, l: bool, h': bool, o: bool)
    ensures SetupBranch(h, l, h', o) == Format <==> !h || !l
    ensures SetupBranch(h, l, h', o) == Open <==> h && l && h' && !o
    ensures SetupBranch(h, l, h', o) == AlreadyOpen <==> h && l && h' && o
    ensures SetupBranch(h, l, h', o) == Inconsistent <==> h && l && !h'
  {
  }

  /** The two guards are complementary: unless the header file appears or
      vanishes between the two checks, the "something failed" branch is
      never taken. */
  lemma InconsistentUnreachable(h: bool, l: bool, o: bool)
    ensures SetupBranch(h, l, h, o) != Inconsistent
  {
  }

  function IsLuksProbe(device: string): Step {
    Exec(["cryptsetup", "isLuks", DevicePrefix + device], None)
  }

  const OpenProbe := Exec(["dmsetup", "info", MapperName], None)

  /** The commands `setup_luks_dev(device, luksParam)` runs, in order. */
  function SetupSteps(device: string, luksParam: string,
                      headerExists: bool, isLuksOk: bool, headerStillExists: bool, isOpenOk: bool): seq<Step>
  {
    var hdr := HeaderPath(device);
    [IsLuksProbe(device)] +
    match SetupBranch(headerExists, isLuksOk, headerStillExists, isOpenOk)
    case Format =>
      [Exec(["fallocate", "-l", "2M", hdr], None),
       Exec(["cryptsetup", "-q", "luksFormat", DevicePrefix + device, "--batch-mode", "--header", hdr], Some(CryptPass))]
    case Open =>
      [OpenProbe,
       Exec(["cryptsetup", "-q", "open", luksParam, "--header", hdr, DevicePrefix + device, MapperName], Some(CryptPass))]
    case AlreadyOpen => [OpenProbe]
    case Inconsistent => [Pause]
  }

  /** A step that only looks: `cryptsetup isLuks` or `dmsetup info`. */
  predicate IsProbe(s: Step) {
    s.Exec? && |s.argv| >= 2
    && ((s.argv[0] == "cryptsetup" && s.argv[1] == "isLuks") || (s.argv[0] == "dmsetup" && s.argv[1] == "info"))
  }

  /** The probe comes first, and the header file is created and formatted
      exactly in the Format branch, the device opened exactly in the Open
      branch; every other branch only probes (or pauses). */
  lemma SetupShape(device: string, luksParam: string, h: bool, l: bool, h': bool, o: bool)
    ensures var s := SetupSteps(device, luksParam, h, l, h', o);
            s[0] == IsLuksProbe(device)
            && (SetupBranch(h, l, h', o) == Format <==> exists k :: 0 <= k < |s| && s[k].Exec? && s[k].argv[0] == "fallocate")
            && (SetupBranch(h, l, h', o) == Open <==> exists k :: 0 <= k < |s| && s[k].Exec? && |s[k].argv| >= 3 && s[k].argv[2] == "open")
            && (SetupBranch(h, l, h', o) == AlreadyOpen ==> forall k :: 0 <= k < |s| ==> IsProbe(s[k]))
  {
    var s := SetupSteps(device, luksParam, h, l, h', o);
    match SetupBranch(h, l, h', o)
    case Format =>
      assert s[1].argv[0] == "fallocate";
    case Open =>
      assert s[2].argv[2] == "open";
    case AlreadyOpen =>
    case Inconsistent =>
  }

  /** Wherever a command takes `--header`, the argument after it is the
      device's header path; the file `fallocate` creates is that path too.
      (A luks parameter that is itself "--header" would be read as the
      flag.) */
  lemma SetupHeaderArguments(device: string, luksParam: string, h: bool, l: bool, h': bool, o: bool)
    requires luksParam != "--header"
    ensures var s := SetupSteps(device, luksParam, h, l, h', o);
            forall k, m :: 0 <= k < |s| && s[k].Exec? && 0 <= m < |s[k].argv| && s[k].argv[m] == "--header"
              ==> m + 1 < |s[k].argv| && s[k].argv[m + 1] == HeaderPath(device)
    ensures var s := SetupSteps(device, luksParam, h, l, h', o);
            forall k :: 0 <= k < |s| && s[k].Exec? && s[k].argv[0] == "fallocate" ==> s[k].argv[3] == HeaderPath(device)
  {
    var s := SetupSteps(device, luksParam, h, l, h', o);
    forall k, m | 0 <= k < |s| && s[k].Exec? && 0 <= m < |s[k].argv| && s[k].argv[m] == "--header"
      ensures m + 1 < |s[k].argv| && s[k].argv[m + 1] == HeaderPath(device)
    {
      assert (DevicePrefix + device)[0] == '/' != "--header"[0];
      assert HeaderPath(device)[0] == '/';
    }
  }

  /** The passphrase goes only to `luksFormat` and `open`. */
  lemma PassphraseOnlyToCryptsetup(device: string, luksParam: string, h: bool, l: bool, h': bool, o: bool)
    ensures var s := SetupSteps(device, luksParam, h, l, h', o);
            forall k :: 0 <= k < |s| && s[k].Exec? && s[k].stdin.Some?
              ==> s[k].stdin.value == CryptPass && s[k].argv[0] == "cryptsetup"
                  && (s[k].argv[2] == "luksFormat" || s[k].argv[2] == "open")
  {
  }

  /** `close_luks_dev` once its two outcomes are known: whether `cryptsetup
      close` succeeded, and what `yes_or_no` answered. */
  function CloseSteps(device: string, closeOk: bool, removeHeader: bool): seq<Step> {
    [Exec(["cryptsetup", "close", MapperName], None)]
    + (if closeOk then [] else [Pause])
    + [Ask("Remove luks header: " + HeaderPath(device) + "?", false)]
    + (if removeHeader then [Exec(["rm", "-vf", RemoveTarget], None)] else [])
  }

  /** `close_luks_dev` of the first script: the reply is typed. */
  function CloseV1(device: string, closeOk: bool, typed: string): seq<Step> {
    CloseSteps(device, closeOk, YesOrNo(typed, false))
  }

  /** `close_luks_dev` of the second script, whose `yes_or_no` answers for
      itself unless `interactive`. */
  function CloseV2(device: string, closeOk: bool, interactive: bool, typed: string): seq<Step> {
    CloseSteps(device, closeOk, YesOrNoV2(interactive, typed, false))
  }

  /** The header-removal branch was taken: `rm -vf '{crypt_header}'` is
      among the steps. */
  predicate RunsRm(s: seq<Step>) {
    Exec(["rm", "-vf", RemoveTarget], None) in s
  }

  /** A failed close pauses before the question; the header-removal branch
      runs exactly when the answer is yes. */
  lemma CloseShape(device: string, closeOk: bool, removeHeader: bool)
    ensures var s := CloseSteps(device, closeOk, removeHeader);
            (Pause in s <==> !closeOk) && (RunsRm(s) <==> removeHeader)
  {
    var s := CloseSteps(device, closeOk, removeHeader);
    var ask := Ask("Remove luks header: " + HeaderPath(device) + "?", false);
    var rm := Exec(["rm", "-vf", RemoveTarget], None);
    if !removeHeader {
      assert forall k :: 0 <= k < |s| ==> s[k] != rm;
    }
    if closeOk {
      assert forall k :: 0 <= k < |s| ==> s[k] != Pause;
    }
  }

  /** The second script, run non-interactively, always takes the
      header-removal branch: it asks with `default_no=False`. */
  lemma CloseV2NonInteractiveRunsRm(device: string, closeOk: bool, typed: string)
    ensures RunsRm(CloseV2(device, closeOk, false, typed))
  {
    NonInteractiveAnswersDefault(typed, false);
    CloseShape(device, closeOk, true);
  }

  /** The first script takes the header-removal branch on a blank reply. */
  lemma CloseV1BlankRunsRm(device: string, closeOk: bool, typed: string)
    requires forall i :: 0 <= i < |typed| ==> IsSpace(typed[i])
    ensures RunsRm(CloseV1(device, closeOk, typed))
  {
    BlankReplyGivesDefault(typed, false);
    CloseShape(device, closeOk, true);
  }

  /** The header file survives every close: its path is the argument of no
      command `close_luks_dev` runs, the `rm` step included, since that step
      names the literal `{crypt_header}`. */
  lemma CloseLeavesHeader(device: string, closeOk: bool, removeHeader: bool)
    ensures var s := CloseSteps(device, closeOk, removeHeader);
            forall k :: 0 <= k < |s| && s[k].Exec? ==> HeaderPath(device) !in s[k].argv
  {
    var s := CloseSteps(device, closeOk, removeHeader);
    var hp := HeaderPath(device);
    assert hp[0] == '/';
    forall k | 0 <= k < |s| && s[k].Exec?
      ensures hp !in s[k].argv
    {
      assert s[k] == Exec(["cryptsetup", "close", MapperName], None)
          || s[k] == Exec(["rm", "-vf", RemoveTarget], None);
      forall a | a in s[k].argv
        ensures a != hp
      {
        assert a == [] || a[0] != '/';
      }
    }
  }

  /** The mapper name and the removal target do not depend on the device:
      every device's setup probes the same `dmsetup info` name and opens the
      same mapping that every device's `cryptsetup close` closes, and `rm`
      never receives the header path that setup created. */
  lemma LiteralArguments(d: string, d': string, luksParam: string, h: bool, l: bool, h': bool, o: bool,
                         closeOk: bool, r: bool)
    ensures CloseSteps(d, closeOk, r)[0] == CloseSteps(d', closeOk, r)[0]
    ensures SetupBranch(h, l, h', o) == Open ==>
              SetupSteps(d, luksParam, h, l, h', o)[1] == SetupSteps(d', luksParam, h, l, h', o)[1]
    ensures SetupBranch(h, l, h', o) == Open ==>
              SetupSteps(d, luksParam, h, l, h', o)[2].argv[7] == CloseSteps(d', closeOk, r)[0].argv[2] == MapperName
    ensures RemoveTarget != HeaderPath(d)
  {
    assert HeaderPath(d)[0] == '/' != RemoveTarget[0];
  }
}
