/** What the calls of `run_fio_tests` are: which combinations occur, that
    none occurs twice, that a mixed job comes before the job without a mix
    of its combination, and what each call's fields and name say. */
module SweepFacts {

  import opened Wrappers
  import opened Strings
  import opened JobNames
  import opened Sweep

  /** A mix is present only for the mixed mode, and is one of the mixes. */
  predicate MixOk(cfg: SweepConfig, c: Combo) {
    c.mix.Some? ==> c.mode == MixedMode && c.mix.value in cfg.mixes
  }

  /** The combinations the nested loops reach. */
  predicate Allowed(cfg: SweepConfig, c: Combo) {
    c.mode in cfg.modes && c.iodepth in cfg.iodepths && c.numjob in cfg.numjobs
    && c.bs in cfg.blocksizes && MixOk(cfg, c)
  }

  predicate NoDup<T(==)>(s: seq<T>) {
    forall i, j :: 0 <= i < j < |s| ==> s[i] != s[j]
  }

  /** None of the four nested loop lists repeats a value. */
  predicate DistinctLoops(cfg: SweepConfig) {
    NoDup(cfg.modes) && NoDup(cfg.iodepths) && NoDup(cfg.numjobs) && NoDup(cfg.blocksizes)
  }

  /** No loop list repeats a value, the mix list included. */
  predicate DistinctAxes(cfg: SweepConfig) {
    DistinctLoops(cfg) && NoDup(cfg.mixes)
  }

  lemma NoDupInit<T>(s: seq<T>)
    requires NoDup(s) && s != []
    ensures NoDup(s[..|s| - 1]) && s[|s| - 1] !in s[..|s| - 1]
  {
  }

  lemma NoDupConcat<T>(xs: seq<T>, ys: seq<T>)
    requires NoDup(xs) && NoDup(ys)
    requires forall x :: x in xs ==> x !in ys
    ensures NoDup(xs + ys)
  {
    var s := xs + ys;
    forall i, j | 0 <= i < j < |s|
      ensures s[i] != s[j]
    {
      if i < |xs| && |xs| <= j {
        assert s[i] in xs && s[j] in ys;
      }
    }
  }

  // ----- Which combinations occur -----

  lemma {:induction false} MixCombosMembers(mode: string, iod: int, nj: int, bs: string, mixes: seq<int>, c: Combo)
    ensures c in MixCombos(mode, iod, nj, bs, mixes)
        <==> c.mode == mode && c.iodepth == iod && c.numjob == nj && c.bs == bs
             && c.mix.Some? && c.mix.value in mixes
  {
    if mixes != [] {
      var init := mixes[..|mixes| - 1];
      MixCombosMembers(mode, iod, nj, bs, init, c);
      assert mixes == init + [mixes[|mixes| - 1]];
    }
  }

  lemma ComboBlockMembers(cfg: SweepConfig, mode: string, iod: int, nj: int, bs: string, c: Combo)
    ensures c in ComboBlock(cfg, mode, iod, nj, bs)
        <==> c.mode == mode && c.iodepth == iod && c.numjob == nj && c.bs == bs && MixOk(cfg, c)
  {
    MixCombosMembers(mode, iod, nj, bs, cfg.mixes, c);
  }

  lemma {:induction false} BlockSizeCombosMembers(cfg: SweepConfig, mode: string, iod: int, nj: int,
                                                  bss: seq<string>, c: Combo)
    ensures c in BlockSizeCombos(cfg, mode, iod, nj, bss)
        <==> c.mode == mode && c.iodepth == iod && c.numjob == nj && c.bs in bss && MixOk(cfg, c)
  {
    if bss != [] {
      var init := bss[..|bss| - 1];
      BlockSizeCombosMembers(cfg, mode, iod, nj, init, c);
      ComboBlockMembers(cfg, mode, iod, nj, bss[|bss| - 1], c);
      assert bss == init + [bss[|bss| - 1]];
    }
  }

  lemma {:induction false} NumjobCombosMembers(cfg: SweepConfig, mode: string, iod: int, njs: seq<int>, c: Combo)
    ensures c in NumjobCombos(cfg, mode, iod, njs)
        <==> c.mode == mode && c.iodepth == iod && c.numjob in njs && c.bs in cfg.blocksizes && MixOk(cfg, c)
  {
    if njs != [] {
      var init := njs[..|njs| - 1];
      NumjobCombosMembers(cfg, mode, iod, init, c);
      BlockSizeCombosMembers(cfg, mode, iod, njs[|njs| - 1], cfg.blocksizes, c);
      assert njs == init + [njs[|njs| - 1]];
    }
  }

  lemma {:induction false} IodepthCombosMembers(cfg: SweepConfig, mode: string, iods: seq<int>, c: Combo)
    ensures c in IodepthCombos(cfg, mode, iods)
        <==> c.mode == mode && c.iodepth in iods && c.numjob in cfg.numjobs && c.bs in cfg.blocksizes
             && MixOk(cfg, c)
  {
    if iods != [] {
      var init := iods[..|iods| - 1];
      IodepthCombosMembers(cfg, mode, init, c);
      NumjobCombosMembers(cfg, mode, iods[|iods| - 1], cfg.numjobs, c);
      assert iods == init + [iods[|iods| - 1]];
    }
  }

  lemma {:induction false} ModeCombosMembers(cfg: SweepConfig, modes: seq<string>, c: Combo)
    ensures c in ModeCombos(cfg, modes)
        <==> c.mode in modes && c.iodepth in cfg.iodepths && c.numjob in cfg.numjobs
             && c.bs in cfg.blocksizes && MixOk(cfg, c)
  {
    if modes != [] {
      var init := modes[..|modes| - 1];
      ModeCombosMembers(cfg, init, c);
      IodepthCombosMembers(cfg, modes[|modes| - 1], cfg.iodepths, c);
      assert modes == init + [modes[|modes| - 1]];
    }
  }

  /** The loops reach exactly the allowed combinations: every mode, iodepth,
      numjob and block size, with a mix from the mix list for the mixed
      mode and without a mix for every mode. */
  lemma CombosMembers(cfg: SweepConfig, c: Combo)
    ensures c in Combos(cfg) <==> Allowed(cfg, c)
  {
    ModeCombosMembers(cfg, cfg.modes, c);
  }

  // ----- No combination occurs twice -----

  lemma {:induction false} MixCombosNoDup(mode: string, iod: int, nj: int, bs: string, mixes: seq<int>)
    requires NoDup(mixes)
    ensures NoDup(MixCombos(mode, iod, nj, bs, mixes))
  {
    if mixes != [] {
      var init, last := mixes[..|mixes| - 1], mixes[|mixes| - 1];
      NoDupInit(mixes);
      MixCombosNoDup(mode, iod, nj, bs, init);
      var c := Combo(mode, Some(last), iod, nj, bs);
      MixCombosMembers(mode, iod, nj, bs, init, c);
      NoDupConcat(MixCombos(mode, iod, nj, bs, init), [c]);
    }
  }

  lemma ComboBlockNoDup(cfg: SweepConfig, mode: string, iod: int, nj: int, bs: string)
    requires NoDup(cfg.mixes)
    ensures NoDup(ComboBlock(cfg, mode, iod, nj, bs))
  {
    var c := Combo(mode, None, iod, nj, bs);
    var mixPart := if mode == MixedMode then MixCombos(mode, iod, nj, bs, cfg.mixes) else [];
    MixCombosNoDup(mode, iod, nj, bs, cfg.mixes);
    MixCombosMembers(mode, iod, nj, bs, cfg.mixes, c);
    NoDupConcat(mixPart, [c]);
  }

  lemma {:induction false} BlockSizeCombosNoDup(cfg: SweepConfig, mode: string, iod: int, nj: int, bss: seq<string>)
    requires NoDup(cfg.mixes) && NoDup(bss)
    ensures NoDup(BlockSizeCombos(cfg, mode, iod, nj, bss))
  {
    if bss != [] {
      var init, last := bss[..|bss| - 1], bss[|bss| - 1];
      NoDupInit(bss);
      BlockSizeCombosNoDup(cfg, mode, iod, nj, init);
      ComboBlockNoDup(cfg, mode, iod, nj, last);
      forall c | c in BlockSizeCombos(cfg, mode, iod, nj, init)
        ensures c !in ComboBlock(cfg, mode, iod, nj, last)
      {
        BlockSizeCombosMembers(cfg, mode, iod, nj, init, c);
        ComboBlockMembers(cfg, mode, iod, nj, last, c);
      }
      NoDupConcat(BlockSizeCombos(cfg, mode, iod, nj, init), ComboBlock(cfg, mode, iod, nj, last));
    }
  }

  lemma {:induction false} NumjobCombosNoDup(cfg: SweepConfig, mode: string, iod: int, njs: seq<int>)
    requires NoDup(cfg.mixes) && NoDup(cfg.blocksizes) && NoDup(njs)
    ensures NoDup(NumjobCombos(cfg, mode, iod, njs))
  {
    if njs != [] {
      var init, last := njs[..|njs| - 1], njs[|njs| - 1];
      NoDupInit(njs);
      NumjobCombosNoDup(cfg, mode, iod, init);
      BlockSizeCombosNoDup(cfg, mode, iod, last, cfg.blocksizes);
      forall c | c in NumjobCombos(cfg, mode, iod, init)
        ensures c !in BlockSizeCombos(cfg, mode, iod, last, cfg.blocksizes)
      {
        NumjobCombosMembers(cfg, mode, iod, init, c);
        BlockSizeCombosMembers(cfg, mode, iod, last, cfg.blocksizes, c);
      }
      NoDupConcat(NumjobCombos(cfg, mode, iod, init), BlockSizeCombos(cfg, mode, iod, last, cfg.blocksizes));
    }
  }

  lemma {:induction false} IodepthCombosNoDup(cfg: SweepConfig, mode: string, iods: seq<int>)
    requires NoDup(cfg.mixes) && NoDup(cfg.blocksizes) && NoDup(cfg.numjobs) && NoDup(iods)
    ensures NoDup(IodepthCombos(cfg, mode, iods))
  {
    if iods != [] {
      var init, last := iods[..|iods| - 1], iods[|iods| - 1];
      NoDupInit(iods);
      IodepthCombosNoDup(cfg, mode, init);
      NumjobCombosNoDup(cfg, mode, last, cfg.numjobs);
      forall c | c in IodepthCombos(cfg, mode, init)
        ensures c !in NumjobCombos(cfg, mode, last, cfg.numjobs)
      {
        IodepthCombosMembers(cfg, mode, init, c);
        NumjobCombosMembers(cfg, mode, last, cfg.numjobs, c);
      }
      NoDupConcat(IodepthCombos(cfg, mode, init), NumjobCombos(cfg, mode, last, cfg.numjobs));
    }
  }

  lemma {:induction false} ModeCombosNoDup(cfg: SweepConfig, modes: seq<string>)
    requires NoDup(cfg.mixes) && NoDup(cfg.blocksizes) && NoDup(cfg.numjobs) && NoDup(cfg.iodepths)
    requires NoDup(modes)
    ensures NoDup(ModeCombos(cfg, modes))
  {
    if modes != [] {
      var init, last := modes[..|modes| - 1], modes[|modes| - 1];
      NoDupInit(modes);
      ModeCombosNoDup(cfg, init);
      IodepthCombosNoDup(cfg, last, cfg.iodepths);
      forall c | c in ModeCombos(cfg, init)
        ensures c !in IodepthCombos(cfg, last, cfg.iodepths)
      {
        ModeCombosMembers(cfg, init, c);
        IodepthCombosMembers(cfg, last, cfg.iodepths, c);
      }
      NoDupConcat(ModeCombos(cfg, init), IodepthCombos(cfg, last, cfg.iodepths));
    }
  }

  /** With no repeated value in any loop list, no combination is visited twice. */
  lemma CombosNoDup(cfg: SweepConfig)
    requires DistinctAxes(cfg)
    ensures NoDup(Combos(cfg))
  {
    ModeCombosNoDup(cfg, cfg.modes);
  }

  // ----- One call without a mix per combination -----

  /** In `s`, no combination without a mix occurs twice. */
  predicate PlainOnce(s: seq<Combo>) {
    forall i, j :: 0 <= i < j < |s| && s[i].mix.None? ==> s[i] != s[j]
  }

  lemma PlainOnceConcat(xs: seq<Combo>, ys: seq<Combo>)
    requires PlainOnce(xs) && PlainOnce(ys)
    requires forall c :: c in xs && c.mix.None? ==> c !in ys
    ensures PlainOnce(xs + ys)
  {
    var s := xs + ys;
    forall i, j | 0 <= i < j < |s| && s[i].mix.None?
      ensures s[i] != s[j]
    {
      if i < |xs| && |xs| <= j {
        assert s[i] in xs && s[j] in ys;
      }
    }
  }

  lemma ComboBlockPlainOnce(cfg: SweepConfig, mode: string, iod: int, nj: int, bs: string)
    ensures PlainOnce(ComboBlock(cfg, mode, iod, nj, bs))
  {
    var s := ComboBlock(cfg, mode, iod, nj, bs);
    var mixPart := if mode == MixedMode then MixCombos(mode, iod, nj, bs, cfg.mixes) else [];
    assert s == mixPart + [Combo(mode, None, iod, nj, bs)];
    forall i | 0 <= i < |mixPart|
      ensures mixPart[i].mix.Some?
    {
      MixCombosMembers(mode, iod, nj, bs, cfg.mixes, mixPart[i]);
    }
  }

  lemma {:induction false} BlockSizeCombosPlainOnce(cfg: SweepConfig, mode: string, iod: int, nj: int, bss: seq<string>)
    requires NoDup(bss)
    ensures PlainOnce(BlockSizeCombos(cfg, mode, iod, nj, bss))
  {
    if bss != [] {
      var init, last := bss[..|bss| - 1], bss[|bss| - 1];
      NoDupInit(bss);
      BlockSizeCombosPlainOnce(cfg, mode, iod, nj, init);
      ComboBlockPlainOnce(cfg, mode, iod, nj, last);
      forall c | c in BlockSizeCombos(cfg, mode, iod, nj, init) && c.mix.None?
        ensures c !in ComboBlock(cfg, mode, iod, nj, last)
      {
        BlockSizeCombosMembers(cfg, mode, iod, nj, init, c);
        ComboBlockMembers(cfg, mode, iod, nj, last, c);
      }
      PlainOnceConcat(BlockSizeCombos(cfg, mode, iod, nj, init), ComboBlock(cfg, mode, iod, nj, last));
    }
  }

  lemma {:induction false} NumjobCombosPlainOnce(cfg: SweepConfig, mode: string, iod: int, njs: seq<int>)
    requires NoDup(cfg.blocksizes) && NoDup(njs)
    ensures PlainOnce(NumjobCombos(cfg, mode, iod, njs))
  {
    if njs != [] {
      var init, last := njs[..|njs| - 1], njs[|njs| - 1];
      NoDupInit(njs);
      NumjobCombosPlainOnce(cfg, mode, iod, init);
      BlockSizeCombosPlainOnce(cfg, mode, iod, last, cfg.blocksizes);
      forall c | c in NumjobCombos(cfg, mode, iod, init) && c.mix.None?
        ensures c !in BlockSizeCombos(cfg, mode, iod, last, cfg.blocksizes)
      {
        NumjobCombosMembers(cfg, mode, iod, init, c);
        BlockSizeCombosMembers(cfg, mode, iod, last, cfg.blocksizes, c);
      }
      PlainOnceConcat(NumjobCombos(cfg, mode, iod, init), BlockSizeCombos(cfg, mode, iod, last, cfg.blocksizes));
    }
  }

  lemma {:induction false} IodepthCombosPlainOnce(cfg: SweepConfig, mode: string, iods: seq<int>)
    requires NoDup(cfg.blocksizes) && NoDup(cfg.numjobs) && NoDup(iods)
    ensures PlainOnce(IodepthCombos(cfg, mode, iods))
  {
    if iods != [] {
      var init, last := iods[..|iods| - 1], iods[|iods| - 1];
      NoDupInit(iods);
      IodepthCombosPlainOnce(cfg, mode, init);
      NumjobCombosPlainOnce(cfg, mode, last, cfg.numjobs);
      forall c | c in IodepthCombos(cfg, mode, init) && c.mix.None?
        ensures c !in NumjobCombos(cfg, mode, last, cfg.numjobs)
      {
        IodepthCombosMembers(cfg, mode, init, c);
        NumjobCombosMembers(cfg, mode, last, cfg.numjobs, c);
      }
      PlainOnceConcat(IodepthCombos(cfg, mode, init), NumjobCombos(cfg, mode, last, cfg.numjobs));
    }
  }

  lemma {:induction false} ModeCombosPlainOnce(cfg: SweepConfig, modes: seq<string>)
    requires NoDup(cfg.blocksizes) && NoDup(cfg.numjobs) && NoDup(cfg.iodepths) && NoDup(modes)
    ensures PlainOnce(ModeCombos(cfg, modes))
  {
    if modes != [] {
      var init, last := modes[..|modes| - 1], modes[|modes| - 1];
      NoDupInit(modes);
      ModeCombosPlainOnce(cfg, init);
      IodepthCombosPlainOnce(cfg, last, cfg.iodepths);
      forall c | c in ModeCombos(cfg, init) && c.mix.None?
        ensures c !in IodepthCombos(cfg, last, cfg.iodepths)
      {
        ModeCombosMembers(cfg, init, c);
        IodepthCombosMembers(cfg, last, cfg.iodepths, c);
      }
      PlainOnceConcat(ModeCombos(cfg, init), IodepthCombos(cfg, last, cfg.iodepths));
    }
  }

  /** Exactly one call without a mix per (mode, iodepth, numjob, block
      size), the mixed mode included, whatever the mix list holds. */
  lemma OnePlainCombo(cfg: SweepConfig, mode: string, iod: int, nj: int, bs: string)
    requires DistinctLoops(cfg)
    requires mode in cfg.modes && iod in cfg.iodepths && nj in cfg.numjobs && bs in cfg.blocksizes
    ensures exists p :: 0 <= p < |Combos(cfg)| && Combos(cfg)[p] == Combo(mode, None, iod, nj, bs)
    ensures forall p, q :: 0 <= p < |Combos(cfg)| && 0 <= q < |Combos(cfg)|
              && Combos(cfg)[p] == Combo(mode, None, iod, nj, bs) && Combos(cfg)[q] == Combo(mode, None, iod, nj, bs)
              ==> p == q
  {
    var c := Combo(mode, None, iod, nj, bs);
    CombosMembers(cfg, c);
    ModeCombosPlainOnce(cfg, cfg.modes);
    assert PlainOnce(Combos(cfg));
  }

  // ----- A mixed job comes before the job without a mix -----

  /** In `s`, a combination with a mix comes before the same combination
      without one. */
  predicate MixBeforePlain(s: seq<Combo>) {
    forall i, p :: 0 <= i < |s| && 0 <= p < |s| && s[i].mix.Some? && s[p] == s[i].(mix := None) ==> i < p
  }

  lemma MixBeforePlainConcat(xs: seq<Combo>, ys: seq<Combo>)
    requires MixBeforePlain(xs) && MixBeforePlain(ys)
    requires forall c :: c in ys && c.mix.Some? ==> c.(mix := None) !in xs
    ensures MixBeforePlain(xs + ys)
  {
    var s := xs + ys;
    forall i, p | 0 <= i < |s| && 0 <= p < |s| && s[i].mix.Some? && s[p] == s[i].(mix := None)
      ensures i < p
    {
      if i < |xs| && p < |xs| {
        assert xs[i] == s[i] && xs[p] == s[p];
      } else if |xs| <= i && |xs| <= p {
        assert ys[i - |xs|] == s[i] && ys[p - |xs|] == s[p];
      }
    }
  }

  lemma {:induction false} MixCombosHaveMix(mode: string, iod: int, nj: int, bs: string, mixes: seq<int>)
    ensures MixBeforePlain(MixCombos(mode, iod, nj, bs, mixes))
  {
    var s := MixCombos(mode, iod, nj, bs, mixes);
    forall i | 0 <= i < |s|
      ensures s[i].mix.Some?
    {
      MixCombosMembers(mode, iod, nj, bs, mixes, s[i]);
    }
  }

  lemma ComboBlockOrder(cfg: SweepConfig, mode: string, iod: int, nj: int, bs: string)
    ensures MixBeforePlain(ComboBlock(cfg, mode, iod, nj, bs))
  {
    MixCombosHaveMix(mode, iod, nj, bs, cfg.mixes);
    var mixPart := if mode == MixedMode then MixCombos(mode, iod, nj, bs, cfg.mixes) else [];
    MixBeforePlainConcat(mixPart, [Combo(mode, None, iod, nj, bs)]);
  }

  lemma {:induction false} BlockSizeCombosOrder(cfg: SweepConfig, mode: string, iod: int, nj: int, bss: seq<string>)
    requires NoDup(bss)
    ensures MixBeforePlain(BlockSizeCombos(cfg, mode, iod, nj, bss))
  {
    if bss != [] {
      var init, last := bss[..|bss| - 1], bss[|bss| - 1];
      NoDupInit(bss);
      BlockSizeCombosOrder(cfg, mode, iod, nj, init);
      ComboBlockOrder(cfg, mode, iod, nj, last);
      forall c | c in ComboBlock(cfg, mode, iod, nj, last) && c.mix.Some?
        ensures c.(mix := None) !in BlockSizeCombos(cfg, mode, iod, nj, init)
      {
        ComboBlockMembers(cfg, mode, iod, nj, last, c);
        BlockSizeCombosMembers(cfg, mode, iod, nj, init, c.(mix := None));
      }
      MixBeforePlainConcat(BlockSizeCombos(cfg, mode, iod, nj, init), ComboBlock(cfg, mode, iod, nj, last));
    }
  }

  lemma {:induction false} NumjobCombosOrder(cfg: SweepConfig, mode: string, iod: int, njs: seq<int>)
    requires NoDup(cfg.blocksizes) && NoDup(njs)
    ensures MixBeforePlain(NumjobCombos(cfg, mode, iod, njs))
  {
    if njs != [] {
      var init, last := njs[..|njs| - 1], njs[|njs| - 1];
      NoDupInit(njs);
      NumjobCombosOrder(cfg, mode, iod, init);
      BlockSizeCombosOrder(cfg, mode, iod, last, cfg.blocksizes);
      forall c | c in BlockSizeCombos(cfg, mode, iod, last, cfg.blocksizes) && c.mix.Some?
        ensures c.(mix := None) !in NumjobCombos(cfg, mode, iod, init)
      {
        BlockSizeCombosMembers(cfg, mode, iod, last, cfg.blocksizes, c);
        NumjobCombosMembers(cfg, mode, iod, init, c.(mix := None));
      }
      MixBeforePlainConcat(NumjobCombos(cfg, mode, iod, init), BlockSizeCombos(cfg, mode, iod, last, cfg.blocksizes));
    }
  }

  lemma {:induction false} IodepthCombosOrder(cfg: SweepConfig, mode: string, iods: seq<int>)
    requires NoDup(cfg.blocksizes) && NoDup(cfg.numjobs) && NoDup(iods)
    ensures MixBeforePlain(IodepthCombos(cfg, mode, iods))
  {
    if iods != [] {
      var init, last := iods[..|iods| - 1], iods[|iods| - 1];
      NoDupInit(iods);
      IodepthCombosOrder(cfg, mode, init);
      NumjobCombosOrder(cfg, mode, last, cfg.numjobs);
      forall c | c in NumjobCombos(cfg, mode, last, cfg.numjobs) && c.mix.Some?
        ensures c.(mix := None) !in IodepthCombos(cfg, mode, init)
      {
        NumjobCombosMembers(cfg, mode, last, cfg.numjobs, c);
        IodepthCombosMembers(cfg, mode, init, c.(mix := None));
      }
      MixBeforePlainConcat(IodepthCombos(cfg, mode, init), NumjobCombos(cfg, mode, last, cfg.numjobs));
    }
  }

  lemma {:induction false} ModeCombosOrder(cfg: SweepConfig, modes: seq<string>)
    requires NoDup(cfg.blocksizes) && NoDup(cfg.numjobs) && NoDup(cfg.iodepths) && NoDup(modes)
    ensures MixBeforePlain(ModeCombos(cfg, modes))
  {
    if modes != [] {
      var init, last := modes[..|modes| - 1], modes[|modes| - 1];
      NoDupInit(modes);
      ModeCombosOrder(cfg, init);
      IodepthCombosOrder(cfg, last, cfg.iodepths);
      forall c | c in IodepthCombos(cfg, last, cfg.iodepths) && c.mix.Some?
        ensures c.(mix := None) !in ModeCombos(cfg, init)
      {
        IodepthCombosMembers(cfg, last, cfg.iodepths, c);
        ModeCombosMembers(cfg, init, c.(mix := None));
      }
      MixBeforePlainConcat(ModeCombos(cfg, init), IodepthCombos(cfg, last, cfg.iodepths));
    }
  }

  /** Every call with a mix comes before the call without a mix for the same
      mode, iodepth, numjob and block size. */
  lemma MixJobsComeFirst(cfg: SweepConfig)
    requires DistinctLoops(cfg)
    ensures MixBeforePlain(Combos(cfg))
  {
    ModeCombosOrder(cfg, cfg.modes);
  }

  // ----- What each call carries -----

  /** Call i is for combination i, an allowed one: the loop values are
      passed through, numjobs is multiplied, and direct, filename and
      runtime are the same for every call. */
  lemma SweepJobFields(cfg: SweepConfig, a: SweepArgs, i: int)
    requires 0 <= i < |Calls(cfg, a)|
    ensures |Calls(cfg, a)| == |Combos(cfg)|
    ensures var j, c := Calls(cfg, a)[i], Combos(cfg)[i];
            Allowed(cfg, c)
            && j.mode == c.mode && j.rwmixread == c.mix && j.iodepth == c.iodepth && j.bs == c.bs
            && j.numjobs == c.numjob * a.jobsMultiplier
            && j.direct == 1 && j.filename == a.device && j.runtime == cfg.runtime
  {
    JobsAt(JobMaker(cfg, a), Combos(cfg));
    CombosMembers(cfg, Combos(cfg)[i]);
  }

  /** A job has a mix only in the mixed mode, and then one from the mix list. */
  lemma MixOnlyForMixedMode(cfg: SweepConfig, a: SweepArgs, j: JobSpec)
    requires j in Calls(cfg, a)
    ensures j.rwmixread.Some? ==> j.mode == MixedMode && j.rwmixread.value in cfg.mixes
  {
    var i :| 0 <= i < |Calls(cfg, a)| && Calls(cfg, a)[i] == j;
    SweepJobFields(cfg, a, i);
  }

  /** No '_' in any mode or block size, nor in the luks parameter when it
      is used: what makes a job name readable back. */
  predicate PlainNames(cfg: SweepConfig, a: SweepArgs) {
    (forall m :: m in cfg.modes ==> '_' !in m)
    && (forall b :: b in cfg.blocksizes ==> '_' !in b)
    && (a.enc ==> '_' !in a.encParam)
  }

  /** The name of call i spells out its mode, mix, iodepth, the numjob before
      multiplication, block size, and the luks parameter exactly when
      encryption is on. */
  lemma SweepJobName(cfg: SweepConfig, a: SweepArgs, i: int)
    requires PlainNames(cfg, a)
    requires 0 <= i < |Calls(cfg, a)|
    ensures |Calls(cfg, a)| == |Combos(cfg)|
    ensures var j, c := Calls(cfg, a)[i], Combos(cfg)[i];
            ParseJobName(j.name)
            == Some(NameParts(j.mode, j.rwmixread, j.iodepth, c.numjob, j.bs, if a.enc then Some(a.encParam) else None))
  {
    SweepJobFields(cfg, a, i);
    JobsAt(JobMaker(cfg, a), Combos(cfg));
    var c := Combos(cfg)[i];
    assert Calls(cfg, a)[i].name == JobName(c.mode, c.mix, c.iodepth, c.numjob, c.bs, a.enc, a.encParam);
    JobNameRoundTrip(c.mode, c.mix, c.iodepth, c.numjob, c.bs, a.enc, a.encParam);
  }

  /** Two calls for different combinations get different names. */
  lemma NamesDiffer(cfg: SweepConfig, a: SweepArgs, i: int, j: int)
    requires PlainNames(cfg, a)
    requires 0 <= i < |Calls(cfg, a)| && 0 <= j < |Calls(cfg, a)|
    ensures |Calls(cfg, a)| == |Combos(cfg)|
    ensures Combos(cfg)[i] != Combos(cfg)[j] ==> Calls(cfg, a)[i].name != Calls(cfg, a)[j].name
  {
    SweepJobName(cfg, a, i);
    SweepJobName(cfg, a, j);
    SweepJobFields(cfg, a, i);
    SweepJobFields(cfg, a, j);
  }

  /** With distinct loop values and no `_` in the modes, the block sizes or
      the luks parameter, no two calls get the same job name. */
  lemma SweepNamesDistinct(cfg: SweepConfig, a: SweepArgs)
    requires DistinctAxes(cfg) && PlainNames(cfg, a)
    ensures forall i, j :: 0 <= i < j < |Calls(cfg, a)| ==> Calls(cfg, a)[i].name != Calls(cfg, a)[j].name
  {
    CombosNoDup(cfg);
    forall i, j | 0 <= i < j < |Calls(cfg, a)|
      ensures Calls(cfg, a)[i].name != Calls(cfg, a)[j].name
    {
      NamesDiffer(cfg, a, i, j);
    }
  }

  /** The first script's lists repeat no value and its modes and block sizes
      contain no '_'. */
  lemma V1Names(a: SweepArgs)
    requires a.enc ==> '_' !in a.encParam
    ensures DistinctAxes(V1Config) && PlainNames(V1Config, a)
    ensures forall i, j :: 0 <= i < j < |Calls(V1Config, a)| ==> Calls(V1Config, a)[i].name != Calls(V1Config, a)[j].name
  {
    assert NoDup(V1Config.modes);
    assert NoDup(V1Config.blocksizes);
    SweepNamesDistinct(V1Config, a);
  }
}
