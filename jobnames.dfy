/** The job names built by `run_fio_tests`, and a parser that recovers the
    parameters from a name. The round trip shows names are unambiguous
    when the mode, the block size and the luks parameter hold no `_`. */
module JobNames {

  import opened Wrappers
  import opened Strings

  /** `job-{mode}[_{mix}]_iod{iodepth}_numjobs{numjob}_{bs}`: the two
      f-strings of `run_fio_tests`, with and without a mix. */
  function BaseName(mode: string, mix: Option<int>, iodepth: int, numjob: int, bs: string): string {
    match mix
    case Some(m) =>
      "job-" + mode + "_" + IntToString(m) + "_iod" + IntToString(iodepth)
      + "_numjobs" + IntToString(numjob) + "_" + bs
    case None =>
      "job-" + mode + "_iod" + IntToString(iodepth)
      + "_numjobs" + IntToString(numjob) + "_" + bs
  }

  /** The base name, followed by `_luks_{encParam}` when `enc` is set. */
  function JobName(mode: string, mix: Option<int>, iodepth: int, numjob: int,
                   bs: string, enc: bool, encParam: string): (r: string)
    ensures "job-" + mode + "_" <= r
    ensures enc ==> |encParam| + 6 <= |r| && r[|r| - |encParam| - 6..] == "_luks_" + encParam
  {
    var base := BaseName(mode, mix, iodepth, numjob, bs);
    if enc then base + "_luks_" + encParam else base
  }

  /** What a job name says: the parameters, and the encryption profile when
      the name carries the LUKS suffix. */
  datatype NameParts = NameParts(mode: string, mix: Option<int>, iodepth: int,
                                 numjob: int, bs: string, luks: Option<string>)

  /** The underscore-separated pieces a job name is made of. */
  function Pieces(mode: string, mix: Option<int>, iodepth: int, numjob: int,
                  bs: string, enc: bool, encParam: string): seq<string>
  {
    ["job-" + mode]
    + (if mix.Some? then [IntToString(mix.value)] else [])
    + ["iod" + IntToString(iodepth), "numjobs" + IntToString(numjob), bs]
    + (if enc then ["luks", encParam] else [])
  }

  /** The pieces joined by single underscores, from the left as the
      f-strings build a name. */
  function Joined(pieces: seq<string>): string
    requires 1 <= |pieces|
  {
    if |pieces| == 1 then pieces[0]
    else Joined(pieces[..|pieces| - 1]) + "_" + pieces[|pieces| - 1]
  }

  function StripPrefix(p: string, s: string): Option<string> {
    if p <= s then Some(s[|p|..]) else None
  }

  function ParseMix(piece: Option<string>): Option<Option<int>> {
    match piece
    case None => Some(None)
    case Some(s) =>
      match ParseInt(s)
      case Some(m) => Some(Some(m))
      case None => None
  }

  function ParsePieces(head: string, mixPiece: Option<string>, iodPiece: string,
                       numjobPiece: string, bs: string, luks: Option<string>): Option<NameParts>
  {
    match (StripPrefix("job-", head), StripPrefix("iod", iodPiece), StripPrefix("numjobs", numjobPiece))
    case (Some(mode), Some(d), Some(n)) =>
      (match (ParseMix(mixPiece), ParseInt(d), ParseInt(n))
       case (Some(mix), Some(iodepth), Some(numjob)) =>
         Some(NameParts(mode, mix, iodepth, numjob, bs, luks))
       case _ => None)
    case _ => None
  }

  /** Reads the pieces of a job name; their number tells whether a mix and
      a LUKS suffix are present. */
  function ParseSplit(f: seq<string>): Option<NameParts> {
    if |f| == 4 then ParsePieces(f[0], None, f[1], f[2], f[3], None)
    else if |f| == 5 then ParsePieces(f[0], Some(f[1]), f[2], f[3], f[4], None)
    else if |f| == 6 && f[4] == "luks" then ParsePieces(f[0], None, f[1], f[2], f[3], Some(f[5]))
    else if |f| == 7 && f[5] == "luks" then ParsePieces(f[0], Some(f[1]), f[2], f[3], f[4], Some(f[6]))
    else None
  }

  /** Reads a job name back into its parameters. */
  function ParseJobName(name: string): Option<NameParts> {
    ParseSplit(Split(name, '_'))
  }

  lemma IntToStringNoUnderscore(i: int)
    ensures '_' !in IntToString(i)
  {
    var s := IntToString(i);
    forall k | 0 <= k < |s| ensures s[k] != '_' {
    }
  }

  lemma NoUnderscoreAfterPrefix(p: string, s: string)
    requires '_' !in p && '_' !in s
    ensures '_' !in (p + s)
  {
    forall k | 0 <= k < |p + s| ensures (p + s)[k] != '_' {
      if k < |p| {
        assert (p + s)[k] == p[k];
      } else {
        assert (p + s)[k] == s[k - |p|];
      }
    }
  }

  lemma JoinedSnoc(init: seq<string>, last: string)
    requires 1 <= |init|
    ensures Joined(init + [last]) == Joined(init) + "_" + last
  {
    assert (init + [last])[..|init|] == init;
  }

  lemma InitLast<T>(s: seq<T>)
    requires s != []
    ensures s[..|s| - 1] + [s[|s| - 1]] == s
  {
  }

  /** Splitting pieces joined by single underscores gives the pieces back. */
  lemma SplitJoined(pieces: seq<string>)
    requires 1 <= |pieces|
    requires forall i :: 0 <= i < |pieces| ==> '_' !in pieces[i]
    ensures Split(Joined(pieces), '_') == pieces
    decreases |pieces|
  {
    var last := pieces[|pieces| - 1];
    SplitNoSep(last, '_');
    if |pieces| > 1 {
      var init := pieces[..|pieces| - 1];
      assert forall i :: 0 <= i < |init| ==> init[i] == pieces[i];
      SplitJoined(init);
      var j := Joined(init);
      assert Joined(pieces) == j + ['_'] + last;
      SplitAtSep(j, last, '_');
      InitLast(pieces);
    }
  }

  /** The last three pieces, iodepth, numjobs and block size, joined onto a
      head. */
  lemma JoinedTail(head: seq<string>, x: string, y: string, z: string)
    requires 1 <= |head|
    ensures Joined(head + [x, y, z]) == Joined(head) + "_" + x + "_" + y + "_" + z
  {
    var p1 := head + [x];
    var p2 := p1 + [y];
    JoinedSnoc(head, x);
    JoinedSnoc(p1, y);
    JoinedSnoc(p2, z);
    SnocThree(head, x, y, z);
  }

  lemma SnocThree<T>(s: seq<T>, x: T, y: T, z: T)
    ensures s + [x] + [y] + [z] == s + [x, y, z]
  {
  }

  /** The tagged tail of a base name, written as the f-strings write it. */
  lemma TaggedTail(h: string, d: string, n: string, bs: string)
    ensures h + "_iod" + d + "_numjobs" + n + "_" + bs
         == h + "_" + ("iod" + d) + "_" + ("numjobs" + n) + "_" + bs
  {
    assert "_iod" == "_" + "iod";
    assert "_numjobs" == "_" + "numjobs";
  }

  lemma BaseNameJoined(mode: string, mix: Option<int>, iodepth: int, numjob: int, bs: string)
    ensures BaseName(mode, mix, iodepth, numjob, bs) == Joined(Pieces(mode, mix, iodepth, numjob, bs, false, ""))
  {
    var a, d, n := "job-" + mode, IntToString(iodepth), IntToString(numjob);
    var tail := ["iod" + d, "numjobs" + n, bs];
    match mix
    case Some(m) =>
      var head := [a, IntToString(m)];
      assert Joined(head) == a + "_" + IntToString(m);
      JoinedTail(head, "iod" + d, "numjobs" + n, bs);
      TaggedTail(a + "_" + IntToString(m), d, n, bs);
      assert Pieces(mode, mix, iodepth, numjob, bs, false, "") == head + tail;
    case None =>
      JoinedTail([a], "iod" + d, "numjobs" + n, bs);
      TaggedTail(a, d, n, bs);
      assert Pieces(mode, mix, iodepth, numjob, bs, false, "") == [a] + tail;
  }

  lemma PiecesNoUnderscore(mode: string, mix: Option<int>, iodepth: int, numjob: int,
                           bs: string, enc: bool, encParam: string)
    requires '_' !in mode && '_' !in bs
    requires enc ==> '_' !in encParam
    ensures var p := Pieces(mode, mix, iodepth, numjob, bs, enc, encParam);
            1 <= |p| && forall i :: 0 <= i < |p| ==> '_' !in p[i]
  {
    IntToStringNoUnderscore(iodepth);
    IntToStringNoUnderscore(numjob);
    NoUnderscoreAfterPrefix("job-", mode);
    NoUnderscoreAfterPrefix("iod", IntToString(iodepth));
    NoUnderscoreAfterPrefix("numjobs", IntToString(numjob));
    if mix.Some? {
      IntToStringNoUnderscore(mix.value);
    }
  }

  lemma JobNameJoined(mode: string, mix: Option<int>, iodepth: int, numjob: int,
                      bs: string, enc: bool, encParam: string)
    ensures JobName(mode, mix, iodepth, numjob, bs, enc, encParam)
         == Joined(Pieces(mode, mix, iodepth, numjob, bs, enc, encParam))
  {
    var p := Pieces(mode, mix, iodepth, numjob, bs, false, "");
    BaseNameJoined(mode, mix, iodepth, numjob, bs);
    if enc {
      JoinedSnoc(p, "luks");
      JoinedSnoc(p + ["luks"], encParam);
      assert "_luks_" == "_" + "luks" + "_";
      assert p + ["luks"] + [encParam] == Pieces(mode, mix, iodepth, numjob, bs, enc, encParam);
    }
  }

  lemma SplitJobName(mode: string, mix: Option<int>, iodepth: int, numjob: int,
                     bs: string, enc: bool, encParam: string)
    requires '_' !in mode && '_' !in bs
    requires enc ==> '_' !in encParam
    ensures Split(JobName(mode, mix, iodepth, numjob, bs, enc, encParam), '_')
         == Pieces(mode, mix, iodepth, numjob, bs, enc, encParam)
  {
    JobNameJoined(mode, mix, iodepth, numjob, bs, enc, encParam);
    PiecesNoUnderscore(mode, mix, iodepth, numjob, bs, enc, encParam);
    SplitJoined(Pieces(mode, mix, iodepth, numjob, bs, enc, encParam));
  }

  function MixPiece(mix: Option<int>): Option<string> {
    if mix.Some? then Some(IntToString(mix.value)) else None
  }

  /** The tagged pieces of a name read back as their parameters. */
  lemma ParseBuiltPieces(mode: string, mix: Option<int>, iodepth: int, numjob: int,
                         bs: string, luks: Option<string>)
    ensures ParsePieces("job-" + mode, MixPiece(mix), "iod" + IntToString(iodepth),
                        "numjobs" + IntToString(numjob), bs, luks)
         == Some(NameParts(mode, mix, iodepth, numjob, bs, luks))
  {
    IntRoundTrip(iodepth);
    IntRoundTrip(numjob);
    if mix.Some? {
      IntRoundTrip(mix.value);
    }
    assert ("job-" + mode)[4..] == mode;
    assert ("iod" + IntToString(iodepth))[3..] == IntToString(iodepth);
    assert ("numjobs" + IntToString(numjob))[7..] == IntToString(numjob);
  }

  lemma ParseOfPieces(mode: string, mix: Option<int>, iodepth: int, numjob: int,
                      bs: string, enc: bool, encParam: string)
    ensures ParseSplit(Pieces(mode, mix, iodepth, numjob, bs, enc, encParam))
         == Some(NameParts(mode, mix, iodepth, numjob, bs, if enc then Some(encParam) else None))
  {
    var f := Pieces(mode, mix, iodepth, numjob, bs, enc, encParam);
    var head, d, n := "job-" + mode, "iod" + IntToString(iodepth), "numjobs" + IntToString(numjob);
    var luks := if enc then Some(encParam) else None;
    ParseBuiltPieces(mode, mix, iodepth, numjob, bs, luks);
    match mix
    case None =>
      if enc {
        assert f == [head, d, n, bs, "luks", encParam];
      } else {
        assert f == [head, d, n, bs];
      }
    case Some(m) =>
      if enc {
        assert f == [head, IntToString(m), d, n, bs, "luks", encParam];
      } else {
        assert f == [head, IntToString(m), d, n, bs];
      }
  }

  /** Parsing a job name gives back what it was built from, including
      whether and with which parameter the LUKS suffix was added, as long as
      the mode, the block size and the suffix hold no underscore. */
  lemma JobNameRoundTrip(mode: string, mix: Option<int>, iodepth: int, numjob: int,
                         bs: string, enc: bool, encParam: string)
    requires '_' !in mode && '_' !in bs
    requires enc ==> '_' !in encParam
    ensures ParseJobName(JobName(mode, mix, iodepth, numjob, bs, enc, encParam))
         == Some(NameParts(mode, mix, iodepth, numjob, bs, if enc then Some(encParam) else None))
  {
    SplitJobName(mode, mix, iodepth, numjob, bs, enc, encParam);
    ParseOfPieces(mode, mix, iodepth, numjob, bs, enc, encParam);
  }

  /** Different parameters give different names. */
  lemma JobNameInjective(mode: string, mix: Option<int>, iodepth: int, numjob: int, bs: string,
                         mode': string, mix': Option<int>, iodepth': int, numjob': int, bs': string,
                         enc: bool, encParam: string)
    requires '_' !in mode && '_' !in bs && '_' !in mode' && '_' !in bs'
    requires enc ==> '_' !in encParam
    requires JobName(mode, mix, iodepth, numjob, bs, enc, encParam)
          == JobName(mode', mix', iodepth', numjob', bs', enc, encParam)
    ensures mode == mode' && mix == mix' && iodepth == iodepth' && numjob == numjob' && bs == bs'
  {
    JobNameRoundTrip(mode, mix, iodepth, numjob, bs, enc, encParam);
    JobNameRoundTrip(mode', mix', iodepth', numjob', bs', enc, encParam);
  }

  /** The LUKS suffix is present exactly when `enc` is set: with and without
      it, the same parameters never give the same name, and the parsed
      suffix is `encParam`. */
  lemma LuksSuffixIffEnc(mode: string, mix: Option<int>, iodepth: int, numjob: int,
                         bs: string, enc: bool, encParam: string)
    requires '_' !in mode && '_' !in bs && '_' !in encParam
    ensures var parts := ParseJobName(JobName(mode, mix, iodepth, numjob, bs, enc, encParam));
            parts.Some? && (parts.value.luks.Some? <==> enc)
            && (enc ==> parts.value.luks.value == encParam)
    ensures JobName(mode, mix, iodepth, numjob, bs, true, encParam)
         != JobName(mode, mix, iodepth, numjob, bs, false, encParam)
  {
    JobNameRoundTrip(mode, mix, iodepth, numjob, bs, enc, encParam);
    JobNameRoundTrip(mode, mix, iodepth, numjob, bs, true, encParam);
    JobNameRoundTrip(mode, mix, iodepth, numjob, bs, false, encParam);
  }
}
