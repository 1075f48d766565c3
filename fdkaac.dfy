/** The channel-layout table shared by the FDK-AAC encoder and decoder
    (`channel_layouts[]`).  The table is a constant; two build-time feature
    flags decide which entries exist.  The encoder and decoder walk it until
    the sentinel entry, whose channel count is 0. */
module FdkAac {

  /** The FDK channel modes that appear in the table. */
  datatype ChannelMode =
    | Mode1 | Mode2 | Mode1_2 | Mode1_2_1 | Mode1_2_2 | Mode1_2_2_1 | Mode1_2_2_2_1
    | Mode6_1 | Mode7_1Back | Mode7_1TopFront
    | Mode7_1RearSurround | Mode7_1FrontCenter
    | ModeInvalid

  /** The GStreamer audio channel positions that appear in the table. */
  datatype ChannelPosition =
    | Mono | FrontLeft | FrontRight | FrontCenter | Lfe1
    | RearLeft | RearRight | FrontLeftOfCenter | FrontRightOfCenter | RearCenter
    | SideLeft | SideRight | SurroundLeft | SurroundRight
    | TopFrontLeft | TopFrontRight
    | Invalid

  /** One initializer of the table: the channel count, the mode and the
      positions written out in the initializer (the C array's trailing
      slots, which C fills with zero, are not represented). */
  datatype ChannelLayout = ChannelLayout(channels: nat, mode: ChannelMode, positions: seq<ChannelPosition>)

  const Sentinel: ChannelLayout := ChannelLayout(0, ModeInvalid, [Invalid])

  // The position lists the initializers use, each written once.

  /** Mono. */
  const MonoPositions: seq<ChannelPosition> := [Mono]

  /** Stereo. */
  const StereoPositions: seq<ChannelPosition> := [FrontLeft, FrontRight]

  /** Stereo and centre. */
  const Front3Positions: seq<ChannelPosition> := [FrontCenter, FrontLeft, FrontRight]

  /** Stereo, centre and rear centre. */
  const Front3RearCenterPositions: seq<ChannelPosition> := [FrontCenter, FrontLeft, FrontRight, RearCenter]

  /** 5.0 with the rear pair. */
  const Surround50RearPositions: seq<ChannelPosition> := [FrontCenter, FrontLeft, FrontRight, RearLeft, RearRight]

  /** 5.0 with the surround pair. */
  const Surround50SurroundPositions: seq<ChannelPosition> := [FrontCenter, FrontLeft, FrontRight, SurroundLeft, SurroundRight]

  /** 5.0 with the side pair. */
  const Surround50SidePositions: seq<ChannelPosition> := [FrontCenter, FrontLeft, FrontRight, SideLeft, SideRight]

  /** 5.1 with the rear pair. */
  const Surround51RearPositions: seq<ChannelPosition> := [FrontCenter, FrontLeft, FrontRight, RearLeft, RearRight, Lfe1]

  /** 5.1 with the surround pair. */
  const Surround51SurroundPositions: seq<ChannelPosition> := [FrontCenter, FrontLeft, FrontRight, SurroundLeft, SurroundRight, Lfe1]

  /** 5.1 with the side pair. */
  const Surround51SidePositions: seq<ChannelPosition> := [FrontCenter, FrontLeft, FrontRight, SideLeft, SideRight, Lfe1]

  /** SDDS with the rear pair. */
  const SddsRearPositions: seq<ChannelPosition> := [FrontCenter, FrontLeftOfCenter, FrontRightOfCenter, FrontLeft, FrontRight, RearLeft, RearRight, Lfe1]

  /** SDDS with the surround pair. */
  const SddsSurroundPositions: seq<ChannelPosition> := [FrontCenter, FrontLeftOfCenter, FrontRightOfCenter, FrontLeft, FrontRight, SurroundLeft, SurroundRight, Lfe1]

  /** 6.1 with the rear pair. */
  const Surround61RearPositions: seq<ChannelPosition> := [FrontCenter, FrontLeft, FrontRight, RearLeft, RearRight, RearCenter, Lfe1]

  /** 6.1 with the surround pair. */
  const Surround61SurroundPositions: seq<ChannelPosition> := [FrontCenter, FrontLeft, FrontRight, SurroundLeft, SurroundRight, RearCenter, Lfe1]

  /** 7.1 with the side and rear pairs. */
  const Surround71SidePositions: seq<ChannelPosition> := [FrontCenter, FrontLeft, FrontRight, SideLeft, SideRight, RearLeft, RearRight, Lfe1]

  /** 7.1 with the surround and rear pairs. */
  const Surround71SurroundPositions: seq<ChannelPosition> := [FrontCenter, FrontLeft, FrontRight, SurroundLeft, SurroundRight, RearLeft, RearRight, Lfe1]

  /** 5.1.2 with the rear pair. */
  const Surround512RearPositions: seq<ChannelPosition> := [FrontCenter, FrontLeft, FrontRight, RearLeft, RearRight, Lfe1, TopFrontLeft, TopFrontRight]

  /** 5.1.2 with the surround pair. */
  const Surround512SurroundPositions: seq<ChannelPosition> := [FrontCenter, FrontLeft, FrontRight, SurroundLeft, SurroundRight, Lfe1, TopFrontLeft, TopFrontRight]

  // The table's initializers, grouped as the source's comments group them.

  /** MPEG channel configurations 1 to 4: mono, stereo, 3.0 and 4.0. */
  const Mpeg1To4Layouts: seq<ChannelLayout> := [
    ChannelLayout(1, Mode1, MonoPositions),
    ChannelLayout(2, Mode2, StereoPositions),
    ChannelLayout(3, Mode1_2, Front3Positions),
    ChannelLayout(4, Mode1_2_1, Front3RearCenterPositions)
  ]

  /** MPEG 5: 5.0 surround, with rear, surround and side pairs. */
  const Mpeg5Layouts: seq<ChannelLayout> := [
    ChannelLayout(5, Mode1_2_2, Surround50RearPositions),
    ChannelLayout(5, Mode1_2_2, Surround50SurroundPositions),
    ChannelLayout(5, Mode1_2_2, Surround50SidePositions)
  ]

  /** MPEG 6: 5.1 surround, with rear, surround and side pairs. */
  const Mpeg6Layouts: seq<ChannelLayout> := [
    ChannelLayout(6, Mode1_2_2_1, Surround51RearPositions),
    ChannelLayout(6, Mode1_2_2_1, Surround51SurroundPositions),
    ChannelLayout(6, Mode1_2_2_1, Surround51SidePositions)
  ]

  /** MPEG 7: SDDS for cinema. */
  const Mpeg7Layouts: seq<ChannelLayout> := [
    ChannelLayout(8, Mode1_2_2_2_1, SddsRearPositions),
    ChannelLayout(8, Mode1_2_2_2_1, SddsSurroundPositions)
  ]

  /** MPEG 11: 6.1 surround (fdk-aac 2.0.0 or later). */
  const Mpeg11Layouts: seq<ChannelLayout> := [
    ChannelLayout(7, Mode6_1, Surround61RearPositions),
    ChannelLayout(7, Mode6_1, Surround61SurroundPositions)
  ]

  /** MPEG 12: 7.1 surround (fdk-aac 2.0.0 or later). */
  const Mpeg12Layouts: seq<ChannelLayout> := [
    ChannelLayout(8, Mode7_1Back, Surround71SidePositions),
    ChannelLayout(8, Mode7_1Back, Surround71SurroundPositions)
  ]

  /** MPEG 14: 5.1.2 surround (fdk-aac 2.0.0 or later). */
  const Mpeg14Layouts: seq<ChannelLayout> := [
    ChannelLayout(8, Mode7_1TopFront, Surround512RearPositions),
    ChannelLayout(8, Mode7_1TopFront, Surround512SurroundPositions)
  ]

  /** Non-standard PCE clone of mode 12 (fdk-aac 0.1.4 or later). */
  const Pce12Layouts: seq<ChannelLayout> := [
    ChannelLayout(8, Mode7_1RearSurround, Surround71SidePositions),
    ChannelLayout(8, Mode7_1RearSurround, Surround71SurroundPositions)
  ]

  /** Non-standard PCE clone of mode 7 (fdk-aac 0.1.4 or later). */
  const Pce7Layouts: seq<ChannelLayout> := [
    ChannelLayout(8, Mode7_1FrontCenter, SddsRearPositions),
    ChannelLayout(8, Mode7_1FrontCenter, SddsSurroundPositions)
  ]

  /** The entries present in every build. */
  const BaseLayouts: seq<ChannelLayout> := Mpeg1To4Layouts + Mpeg5Layouts + Mpeg6Layouts + Mpeg7Layouts

  /** The entries under `#ifdef HAVE_FDK_AAC_2_0_0`. */
  const Fdk2_0_0Layouts: seq<ChannelLayout> := Mpeg11Layouts + Mpeg12Layouts + Mpeg14Layouts

  /** The entries under `#ifdef HAVE_FDK_AAC_0_1_4`. */
  const Fdk0_1_4Layouts: seq<ChannelLayout> := Pce12Layouts + Pce7Layouts

  /** `channel_layouts[]` as compiled with the two feature flags
      HAVE_FDK_AAC_2_0_0 and HAVE_FDK_AAC_0_1_4. */
  function ChannelLayouts(haveFdkAac2_0_0: bool, haveFdkAac0_1_4: bool): seq<ChannelLayout>
  {
    BaseLayouts
    + (if haveFdkAac2_0_0 then Fdk2_0_0Layouts else [])
    + (if haveFdkAac0_1_4 then Fdk0_1_4Layouts else [])
    + [Sentinel]
  }

  predicate Distinct(s: seq<ChannelPosition>)
  {
    forall i, j :: 0 <= i < j < |s| ==> s[i] != s[j]
  }

  /** What every real position list promises: pairwise distinct valid
      positions, FRONT_CENTER first from 3 channels on, LFE1 present from 6
      channels on. */
  predicate PositionsOk(p: seq<ChannelPosition>)
  {
    && Distinct(p)
    && Invalid !in p
    && (|p| >= 3 ==> p[0] == FrontCenter)
    && (|p| >= 6 ==> Lfe1 in p)
  }

  /** What every real (non-sentinel) entry promises. */
  predicate WellFormedEntry(e: ChannelLayout)
  {
    && e.channels > 0
    && e.mode != ModeInvalid
    && |e.positions| == e.channels
    && PositionsOk(e.positions)
  }

  /** The channel count each mode stands for in the table. */
  function ModeChannels(m: ChannelMode): nat
  {
    match m
    case Mode1 => 1
    case Mode2 => 2
    case Mode1_2 => 3
    case Mode1_2_1 => 4
    case Mode1_2_2 => 5
    case Mode1_2_2_1 => 6
    case Mode6_1 => 7
    case Mode1_2_2_2_1 => 8
    case Mode7_1Back => 8
    case Mode7_1TopFront => 8
    case Mode7_1RearSurround => 8
    case Mode7_1FrontCenter => 8
    case ModeInvalid => 0
  }

  /** Every entry of `g` is a real layout with its mode's channel count. */
  predicate GroupOk(g: seq<ChannelLayout>)
  {
    forall i :: 0 <= i < |g| ==> EntryOk(g[i])
  }

  /** A real layout whose channel count is its mode's. */
  predicate EntryOk(e: ChannelLayout)
  {
    WellFormedEntry(e) && e.channels == ModeChannels(e.mode)
  }

  lemma {:induction false} GroupOkConcat(a: seq<ChannelLayout>, b: seq<ChannelLayout>)
    requires GroupOk(a) && GroupOk(b)
    ensures GroupOk(a + b)
  {
    forall i | 0 <= i < |a + b|
      ensures EntryOk((a + b)[i])
    {
      if i < |a| {
        assert (a + b)[i] == a[i];
      } else {
        assert (a + b)[i] == b[i - |a|];
      }
    }
  }

  // Each position list is checked on its own, then each group from its lists;
  // this keeps every proof obligation small.

  lemma MonoOk() ensures PositionsOk(MonoPositions) {}
  lemma StereoOk() ensures PositionsOk(StereoPositions) {}
  lemma Front3Ok() ensures PositionsOk(Front3Positions) {}
  lemma Front3RearCenterOk() ensures PositionsOk(Front3RearCenterPositions) {}
  lemma Surround50RearOk() ensures PositionsOk(Surround50RearPositions) {}
  lemma Surround50SurroundOk() ensures PositionsOk(Surround50SurroundPositions) {}
  lemma Surround50SideOk() ensures PositionsOk(Surround50SidePositions) {}
  lemma Surround51RearOk() ensures PositionsOk(Surround51RearPositions) {}
  lemma Surround51SurroundOk() ensures PositionsOk(Surround51SurroundPositions) {}
  lemma Surround51SideOk() ensures PositionsOk(Surround51SidePositions) {}
  lemma SddsRearOk() ensures PositionsOk(SddsRearPositions) {}
  lemma SddsSurroundOk() ensures PositionsOk(SddsSurroundPositions) {}
  lemma Surround61RearOk() ensures PositionsOk(Surround61RearPositions) {}
  lemma Surround61SurroundOk() ensures PositionsOk(Surround61SurroundPositions) {}
  lemma Surround71SideOk() ensures PositionsOk(Surround71SidePositions) {}
  lemma Surround71SurroundOk() ensures PositionsOk(Surround71SurroundPositions) {}
  lemma Surround512RearOk() ensures PositionsOk(Surround512RearPositions) {}
  lemma Surround512SurroundOk() ensures PositionsOk(Surround512SurroundPositions) {}

  lemma Mpeg1To4Ok() ensures GroupOk(Mpeg1To4Layouts) {
    MonoOk(); StereoOk(); Front3Ok(); Front3RearCenterOk();
    assert EntryOk(Mpeg1To4Layouts[0]) && EntryOk(Mpeg1To4Layouts[1]) && EntryOk(Mpeg1To4Layouts[2]) && EntryOk(Mpeg1To4Layouts[3]);
  }
  lemma Mpeg5Ok() ensures GroupOk(Mpeg5Layouts) {
    Surround50RearOk(); Surround50SurroundOk(); Surround50SideOk();
    assert EntryOk(Mpeg5Layouts[0]) && EntryOk(Mpeg5Layouts[1]) && EntryOk(Mpeg5Layouts[2]);
  }
  lemma Mpeg6Ok() ensures GroupOk(Mpeg6Layouts) {
    Surround51RearOk(); Surround51SurroundOk(); Surround51SideOk();
    assert EntryOk(Mpeg6Layouts[0]) && EntryOk(Mpeg6Layouts[1]) && EntryOk(Mpeg6Layouts[2]);
  }
  lemma Mpeg7Ok() ensures GroupOk(Mpeg7Layouts) {
    SddsRearOk(); SddsSurroundOk();
    assert EntryOk(Mpeg7Layouts[0]) && EntryOk(Mpeg7Layouts[1]);
  }
  lemma Mpeg11Ok() ensures GroupOk(Mpeg11Layouts) {
    Surround61RearOk(); Surround61SurroundOk();
    assert EntryOk(Mpeg11Layouts[0]) && EntryOk(Mpeg11Layouts[1]);
  }
  lemma Mpeg12Ok() ensures GroupOk(Mpeg12Layouts) {
    Surround71SideOk(); Surround71SurroundOk();
    assert EntryOk(Mpeg12Layouts[0]) && EntryOk(Mpeg12Layouts[1]);
  }
  lemma Mpeg14Ok() ensures GroupOk(Mpeg14Layouts) {
    Surround512RearOk(); Surround512SurroundOk();
    assert EntryOk(Mpeg14Layouts[0]) && EntryOk(Mpeg14Layouts[1]);
  }
  lemma Pce12Ok() ensures GroupOk(Pce12Layouts) {
    Surround71SideOk(); Surround71SurroundOk();
    assert EntryOk(Pce12Layouts[0]) && EntryOk(Pce12Layouts[1]);
  }
  lemma Pce7Ok() ensures GroupOk(Pce7Layouts) {
    SddsRearOk(); SddsSurroundOk();
    assert EntryOk(Pce7Layouts[0]) && EntryOk(Pce7Layouts[1]);
  }

  /** Every entry built in, whatever the flags, satisfies the entry invariants. */
  lemma {:induction false} EntriesOk(haveFdkAac2_0_0: bool, haveFdkAac0_1_4: bool)
    ensures var t := ChannelLayouts(haveFdkAac2_0_0, haveFdkAac0_1_4);
      GroupOk(t[..|t| - 1])
  {
    Mpeg1To4Ok(); Mpeg5Ok(); Mpeg6Ok(); Mpeg7Ok();
    GroupOkConcat(Mpeg1To4Layouts, Mpeg5Layouts);
    GroupOkConcat(Mpeg1To4Layouts + Mpeg5Layouts, Mpeg6Layouts);
    GroupOkConcat(Mpeg1To4Layouts + Mpeg5Layouts + Mpeg6Layouts, Mpeg7Layouts);
    Mpeg11Ok(); Mpeg12Ok(); Mpeg14Ok();
    GroupOkConcat(Mpeg11Layouts, Mpeg12Layouts);
    GroupOkConcat(Mpeg11Layouts + Mpeg12Layouts, Mpeg14Layouts);
    Pce12Ok(); Pce7Ok();
    GroupOkConcat(Pce12Layouts, Pce7Layouts);
    var a: seq<ChannelLayout> := if haveFdkAac2_0_0 then Fdk2_0_0Layouts else [];
    var b: seq<ChannelLayout> := if haveFdkAac0_1_4 then Fdk0_1_4Layouts else [];
    assert GroupOk(a) && GroupOk(b);
    GroupOkConcat(BaseLayouts, a);
    GroupOkConcat(BaseLayouts + a, b);
    var t := ChannelLayouts(haveFdkAac2_0_0, haveFdkAac0_1_4);
    assert t[..|t| - 1] == BaseLayouts + a + b;
  }

  /** The table ends with the sentinel `{0, MODE_INVALID, {INVALID}}`; every
      earlier entry is a real layout (a positive channel count, exactly that many
      pairwise distinct valid positions, FRONT_CENTER first from 3 channels on,
      LFE1 present from 6 channels on) whose count is its mode's; so the sentinel
      is the first entry with 0 channels. All four flag combinations. */
  lemma {:induction false} TableWellFormed(haveFdkAac2_0_0: bool, haveFdkAac0_1_4: bool)
    ensures var t := ChannelLayouts(haveFdkAac2_0_0, haveFdkAac0_1_4);
      && |t| >= 1
      && t[|t| - 1] == Sentinel
      && (forall i :: 0 <= i < |t| - 1 ==> WellFormedEntry(t[i]) && t[i].channels == ModeChannels(t[i].mode))
      && (forall i :: 0 <= i < |t| && t[i].channels == 0 ==> i == |t| - 1)
  {
    EntriesOk(haveFdkAac2_0_0, haveFdkAac0_1_4);
    var t := ChannelLayouts(haveFdkAac2_0_0, haveFdkAac0_1_4);
    forall i | 0 <= i < |t| - 1
      ensures WellFormedEntry(t[i]) && t[i].channels == ModeChannels(t[i].mode)
    {
      assert t[i] == t[..|t| - 1][i];
    }
  }

  /** Entries that share a mode share a channel count; in particular
      MODE_1_2_2 always has 5 channels and MODE_1_2_2_1 always 6. */
  lemma {:induction false} ModeDeterminesChannels(haveFdkAac2_0_0: bool, haveFdkAac0_1_4: bool, i: nat, j: nat)
    requires var t := ChannelLayouts(haveFdkAac2_0_0, haveFdkAac0_1_4);
      i < |t| && j < |t|
    ensures var t := ChannelLayouts(haveFdkAac2_0_0, haveFdkAac0_1_4);
      && (t[i].mode == t[j].mode ==> t[i].channels == t[j].channels)
      && (t[i].mode == Mode1_2_2 ==> t[i].channels == 5)
      && (t[i].mode == Mode1_2_2_1 ==> t[i].channels == 6)
  {
    TableWellFormed(haveFdkAac2_0_0, haveFdkAac0_1_4);
  }
}
