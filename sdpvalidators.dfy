/** The SDP validators of the webrtcbin test harness. Each validator walks a
    session description and aborts the test (`fail_unless`) on the first thing
    it does not expect; here each one is a method returning `ok`, false exactly
    when the C code would abort, proved equal to a declarative statement of what
    the validator accepts. An expected-value array indexed past its end, and a
    GLib critical (a NULL string given to a GLib string function, an m-line
    index out of range), also abort the test and read as `ok == false`. */
module SdpValidators {
  import opened Wrappers
  import opened Sdp
  import Decimal
  import opened Strings

  // ---------------------------------------------------------------------------
  // Filters over attribute lists, read left to right.

  predicate IsDirectionKey(key: string)
  {
    key == "inactive" || key == "sendonly" || key == "recvonly" || key == "sendrecv"
  }

  /** The keys of the direction attributes, in order. */
  function DirectionKeys(attrs: seq<Attribute>): (r: seq<string>)
    ensures |r| <= |attrs|
  {
    if |attrs| == 0 then []
    else
      var last := attrs[|attrs| - 1];
      DirectionKeys(attrs[..|attrs| - 1]) + (if IsDirectionKey(last.key) then [last.key] else [])
  }

  lemma DirectionKeysSnoc(attrs: seq<Attribute>, j: nat)
    requires j < |attrs|
    ensures DirectionKeys(attrs[..j + 1]) ==
            DirectionKeys(attrs[..j]) + (if IsDirectionKey(attrs[j].key) then [attrs[j].key] else [])
  {
    assert attrs[..j + 1][..j] == attrs[..j];
  }

  lemma {:induction false} DirectionKeysPrefix(attrs: seq<Attribute>, j: nat)
    requires j <= |attrs|
    ensures DirectionKeys(attrs[..j]) <= DirectionKeys(attrs)
    decreases |attrs|
  {
    if j == |attrs| {
      assert attrs[..j] == attrs;
    } else {
      var init := attrs[..|attrs| - 1];
      assert init[..j] == attrs[..j];
      DirectionKeysPrefix(init, j);
    }
  }

  /** The direction keys of the whole list are at least as many as those of
      a prefix, and begin with the same key. */
  lemma DirectionKeysPrefixFacts(attrs: seq<Attribute>, j: nat)
    requires j <= |attrs|
    ensures var p := DirectionKeys(attrs[..j]);
      var all := DirectionKeys(attrs);
      |p| <= |all| && (|p| > 0 ==> all[0] == p[0])
  {
    DirectionKeysPrefix(attrs, j);
  }

  /** A second direction attribute, or a first one other than `e`, means the
      list does not have exactly the direction keys `[e]`. */
  lemma DirectionMismatch(attrs: seq<Attribute>, j: nat, e: string, haveDirection: bool)
    requires j < |attrs|
    requires DirectionKeys(attrs[..j + 1]) == (if haveDirection then [e] else []) + [attrs[j].key]
    requires haveDirection || attrs[j].key != e
    ensures DirectionKeys(attrs) != [e]
  {
    DirectionKeysPrefixFacts(attrs, j + 1);
    ghost var p := DirectionKeys(attrs[..j + 1]);
    if haveDirection {
      assert |p| == 2;
    } else {
      assert p[0] == attrs[j].key;
    }
  }

  /** The values of the `setup` attributes, in order. */
  function SetupValues(attrs: seq<Attribute>): (r: seq<Option<string>>)
    ensures |r| <= |attrs|
  {
    if |attrs| == 0 then []
    else
      var last := attrs[|attrs| - 1];
      SetupValues(attrs[..|attrs| - 1]) + (if last.key == "setup" then [last.value] else [])
  }

  lemma SetupValuesSnoc(attrs: seq<Attribute>, j: nat)
    requires j < |attrs|
    ensures SetupValues(attrs[..j + 1]) ==
            SetupValues(attrs[..j]) + (if attrs[j].key == "setup" then [attrs[j].value] else [])
  {
    assert attrs[..j + 1][..j] == attrs[..j];
  }

  lemma {:induction false} SetupValuesPrefix(attrs: seq<Attribute>, j: nat)
    requires j <= |attrs|
    ensures SetupValues(attrs[..j]) <= SetupValues(attrs)
    decreases |attrs|
  {
    if j == |attrs| {
      assert attrs[..j] == attrs;
    } else {
      var init := attrs[..|attrs| - 1];
      assert init[..j] == attrs[..j];
      SetupValuesPrefix(init, j);
    }
  }

  /** The `setup` values of the whole list are at least as many as those of
      a prefix, and begin with the same value. */
  lemma SetupValuesPrefixFacts(attrs: seq<Attribute>, j: nat)
    requires j <= |attrs|
    ensures var p := SetupValues(attrs[..j]);
      var all := SetupValues(attrs);
      |p| <= |all| && (|p| > 0 ==> all[0] == p[0])
  {
    SetupValuesPrefix(attrs, j);
  }

  /** A second `setup` attribute, or a first one whose value is not `v`,
      means the list does not have exactly the setup values `[v]`. */
  lemma SetupMismatch(attrs: seq<Attribute>, j: nat, v: Option<string>, haveSetup: bool)
    requires j < |attrs| && attrs[j].key == "setup"
    requires SetupValues(attrs[..j]) == if haveSetup then [v] else []
    requires haveSetup || attrs[j].value != v
    ensures SetupValues(attrs) != [v]
  {
    SetupValuesSnoc(attrs, j);
    SetupValuesPrefixFacts(attrs, j + 1);
    if haveSetup {
      assert |SetupValues(attrs[..j + 1])| == 2;
    } else {
      assert SetupValues(attrs[..j + 1]) == [attrs[j].value];
    }
  }

  /** A direction attribute when none is expected, a second one, or a first
      one other than the expected one rejects the section. */
  lemma DirectionRejected(attrs: seq<Attribute>, j: nat, expected: Option<string>, haveDirection: bool)
    requires j < |attrs| && IsDirectionKey(attrs[j].key)
    requires haveDirection ==> expected.Some?
    requires DirectionKeys(attrs[..j]) == if haveDirection then [expected.value] else []
    requires expected.None? || haveDirection || attrs[j].key != expected.value
    ensures expected.None? || DirectionKeys(attrs) != [expected.value]
  {
    if expected.Some? {
      DirectionKeysSnoc(attrs, j);
      DirectionMismatch(attrs, j, expected.value, haveDirection);
    }
  }

  // ---------------------------------------------------------------------------
  // on_sdp_media_direction

  predicate IsAudioOrVideo(m: Media)
  {
    m.media == "audio" || m.media == "video"
  }

  /** The expected entry for section `i`, when the array has one. */
  function ExpectedAt<T>(expected: seq<T>, i: nat): (r: Option<T>)
    ensures r.Some? <==> i < |expected|
    ensures r.Some? ==> r.value == expected[i]
  {
    if i < |expected| then Some(expected[i]) else None
  }

  /** The section carries exactly one direction attribute, the expected one. */
  predicate MediaDirectionOk(m: Media, expected: Option<string>)
  {
    expected.Some? && DirectionKeys(m.attributes) == [expected.value]
  }

  /** Every audio or video section carries exactly one direction attribute,
      and it is the expected direction for that section. */
  predicate DirectionsOk(msg: SdpMessage, expected: seq<string>)
  {
    forall i :: 0 <= i < |msg.medias| && IsAudioOrVideo(msg.medias[i]) ==>
      MediaDirectionOk(msg.medias[i], ExpectedAt(expected, i))
  }

  /** The inner loop of `on_sdp_media_direction`, over one section's attributes. */
  method CheckMediaDirection(m: Media, expected: Option<string>) returns (ok: bool)
    ensures ok <==> MediaDirectionOk(m, expected)
  {
    var attrs := m.attributes;
    var haveDirection := false;
    var j := 0;
    while j < |attrs|
      invariant 0 <= j <= |attrs|
      invariant haveDirection ==> expected.Some?
      invariant DirectionKeys(attrs[..j]) == if haveDirection then [expected.value] else []
    {
      var key := attrs[j].key;
      DirectionKeysSnoc(attrs, j);
      if IsDirectionKey(key) {
        if expected.None? || haveDirection || key != expected.value {
          DirectionRejected(attrs, j, expected, haveDirection);
          return false;
        }
        haveDirection := true;
      }
      j := j + 1;
    }
    assert attrs[..j] == attrs;
    ok := haveDirection;
  }

  method MediaDirection(msg: SdpMessage, expected: seq<string>) returns (ok: bool)
    ensures ok <==> DirectionsOk(msg, expected)
  {
    var i := 0;
    while i < |msg.medias|
      invariant 0 <= i <= |msg.medias|
      invariant forall i' :: 0 <= i' < i && IsAudioOrVideo(msg.medias[i']) ==>
                  MediaDirectionOk(msg.medias[i'], ExpectedAt(expected, i'))
    {
      var m := msg.medias[i];
      if m.media == "audio" || m.media == "video" {
        ok := CheckMediaDirection(m, ExpectedAt(expected, i));
        if !ok {
          return;
        }
      }
      i := i + 1;
    }
    return true;
  }

  // ---------------------------------------------------------------------------
  // on_sdp_media_no_duplicate_payloads

  /** No two formats of the section have the same payload type (their `atoi`). */
  predicate DistinctPayloadTypes(formats: seq<string>)
  {
    forall j, k :: 0 <= k < j < |formats| ==> Decimal.Atoi(formats[j]) != Decimal.Atoi(formats[k])
  }

  /** No section lists the same payload type twice. */
  predicate NoDuplicatePayloadsOk(msg: SdpMessage)
  {
    forall i :: 0 <= i < |msg.medias| ==> DistinctPayloadTypes(msg.medias[i].formats)
  }

  /** One section of `on_sdp_media_no_duplicate_payloads`: each payload type is
      compared with those already collected in `seen`, then appended to it. */
  method CheckDistinctPayloadTypes(formats: seq<string>) returns (ok: bool)
    ensures ok <==> DistinctPayloadTypes(formats)
  {
    var seen: seq<int> := [];
    var j := 0;
    while j < |formats|
      invariant 0 <= j <= |formats|
      invariant |seen| == j
      invariant forall k :: 0 <= k < j ==> seen[k] == Decimal.Atoi(formats[k])
      invariant forall a, b :: 0 <= b < a < j ==> seen[a] != seen[b]
    {
      var pt := Decimal.Atoi(formats[j]);
      var k := 0;
      while k < |seen|
        invariant 0 <= k <= |seen|
        invariant forall k' :: 0 <= k' < k ==> pt != seen[k']
      {
        if pt == seen[k] {
          return false;
        }
        k := k + 1;
      }
      seen := seen + [pt];
      j := j + 1;
    }
    return true;
  }

  method NoDuplicatePayloads(msg: SdpMessage) returns (ok: bool)
    ensures ok <==> NoDuplicatePayloadsOk(msg)
  {
    var i := 0;
    while i < |msg.medias|
      invariant 0 <= i <= |msg.medias|
      invariant forall i' :: 0 <= i' < i ==> DistinctPayloadTypes(msg.medias[i'].formats)
    {
      ok := CheckDistinctPayloadTypes(msg.medias[i].formats);
      if !ok {
        return;
      }
      i := i + 1;
    }
    return true;
  }

  // ---------------------------------------------------------------------------
  // on_sdp_media_count_formats

  predicate MediaFormatCountOk(m: Media, expected: Option<nat>)
  {
    expected.Some? && |m.formats| == expected.value
  }

  /** Every section has the expected number of formats. */
  predicate CountFormatsOk(msg: SdpMessage, expected: seq<nat>)
  {
    forall i :: 0 <= i < |msg.medias| ==> MediaFormatCountOk(msg.medias[i], ExpectedAt(expected, i))
  }

  method CountFormats(msg: SdpMessage, expected: seq<nat>) returns (ok: bool)
    ensures ok <==> CountFormatsOk(msg, expected)
  {
    var i := 0;
    while i < |msg.medias|
      invariant 0 <= i <= |msg.medias|
      invariant forall i' :: 0 <= i' < i ==> MediaFormatCountOk(msg.medias[i'], ExpectedAt(expected, i'))
    {
      var m := msg.medias[i];
      if i >= |expected| || |m.formats| != expected[i] {
        return false;
      }
      i := i + 1;
    }
    return true;
  }

  // ---------------------------------------------------------------------------
  // on_sdp_media_setup

  /** The section carries exactly one `setup` attribute, with the expected value. */
  predicate MediaSetupOk(m: Media, expected: Option<string>)
  {
    expected.Some? && SetupValues(m.attributes) == [Some(expected.value)]
  }

  /** Every section carries exactly one `setup` attribute, with the expected value. */
  predicate SetupOk(msg: SdpMessage, expected: seq<string>)
  {
    forall i :: 0 <= i < |msg.medias| ==> MediaSetupOk(msg.medias[i], ExpectedAt(expected, i))
  }

  /** The inner loop of `on_sdp_media_setup`, over one section's attributes. */
  method CheckMediaSetup(m: Media, expected: Option<string>) returns (ok: bool)
    ensures ok <==> MediaSetupOk(m, expected)
  {
    var attrs := m.attributes;
    var haveSetup := false;
    var j := 0;
    while j < |attrs|
      invariant 0 <= j <= |attrs|
      invariant haveSetup ==> expected.Some?
      invariant SetupValues(attrs[..j]) == if haveSetup then [Some(expected.value)] else []
    {
      if attrs[j].key == "setup" {
        if expected.None? {
          return false;
        }
        if haveSetup || attrs[j].value != Some(expected.value) {
          SetupMismatch(attrs, j, Some(expected.value), haveSetup);
          return false;
        }
        haveSetup := true;
      }
      SetupValuesSnoc(attrs, j);
      j := j + 1;
    }
    assert attrs[..j] == attrs;
    ok := haveSetup;
  }

  method MediaSetup(msg: SdpMessage, expected: seq<string>) returns (ok: bool)
    ensures ok <==> SetupOk(msg, expected)
  {
    var i := 0;
    while i < |msg.medias|
      invariant 0 <= i <= |msg.medias|
      invariant forall i' :: 0 <= i' < i ==> MediaSetupOk(msg.medias[i'], ExpectedAt(expected, i'))
    {
      ok := CheckMediaSetup(msg.medias[i], ExpectedAt(expected, i));
      if !ok {
        return;
      }
      i := i + 1;
    }
    return true;
  }

  // ---------------------------------------------------------------------------
  // on_sdp_media_payload_types and on_sdp_media_payload_types_only_h264

  /** The rtpmap value the validator demands of `v`: the first of the prefixes
      97, 96, 98, 99, 100, 101 that `v` starts with picks it; a value with none
      of these prefixes is accepted as it is. */
  function RtpmapExpected(v: string): Option<string>
  {
    if HasPrefix(v, "97") then Some("97 VP8/90000")
    else if HasPrefix(v, "96") then Some("96 red/90000")
    else if HasPrefix(v, "98") then Some("98 ulpfec/90000")
    else if HasPrefix(v, "99") then Some("99 rtx/90000")
    else if HasPrefix(v, "100") then Some("100 rtx/90000")
    else if HasPrefix(v, "101") then Some("101 H264/90000")
    else None
  }

  predicate RtpmapOk(v: string)
  {
    RtpmapExpected(v).None? || v == RtpmapExpected(v).value
  }

  /** The payload-type rules as a table: a value starting with the first
      string must be exactly the second. */
  const RtpmapRules: seq<(string, string)> := [
    ("97", "97 VP8/90000"), ("96", "96 red/90000"), ("98", "98 ulpfec/90000"),
    ("99", "99 rtx/90000"), ("100", "100 rtx/90000"), ("101", "101 H264/90000")]

  /** A value starts with at most one of the table's prefixes. */
  lemma {:induction false} RtpmapPrefixesExclusive(v: string, r: nat, q: nat)
    requires r < |RtpmapRules| && q < |RtpmapRules|
    requires HasPrefix(v, RtpmapRules[r].0) && HasPrefix(v, RtpmapRules[q].0)
    ensures r == q
  {
    var p, p' := RtpmapRules[r].0, RtpmapRules[q].0;
    assert v[0] == p[0] && v[1] == p[1] && v[0] == p'[0] && v[1] == p'[1];
    if |p| == 3 && |p'| == 3 {
      assert v[2] == p[2] && v[2] == p'[2];
    }
  }

  /** No prefix of the table is a prefix of another, so the order in which the
      source tries them does not matter: a value passes the if-else chain iff
      it obeys every rule of the table. */
  lemma RtpmapOkIffAllRules(v: string)
    ensures RtpmapOk(v) <==>
            forall r :: 0 <= r < |RtpmapRules| && HasPrefix(v, RtpmapRules[r].0) ==> v == RtpmapRules[r].1
  {
    var rules := RtpmapRules;
    var first := if HasPrefix(v, "97") then 0
                 else if HasPrefix(v, "96") then 1
                 else if HasPrefix(v, "98") then 2
                 else if HasPrefix(v, "99") then 3
                 else if HasPrefix(v, "100") then 4
                 else if HasPrefix(v, "101") then 5
                 else 6;
    if first < 6 {
      assert HasPrefix(v, rules[first].0) && RtpmapExpected(v) == Some(rules[first].1);
      forall r | 0 <= r < |rules| && HasPrefix(v, rules[r].0) ensures r == first {
        RtpmapPrefixesExclusive(v, r, first);
      }
    } else {
      assert RtpmapExpected(v).None?;
      forall r | 0 <= r < |rules| ensures !HasPrefix(v, rules[r].0) {
        assert rules[r].0 in ["97", "96", "98", "99", "100", "101"];
      }
    }
  }

  /** Every rtpmap attribute of the section has a value that obeys the rules. */
  predicate RtpmapsOk(m: Media)
  {
    forall j :: 0 <= j < |m.attributes| && m.attributes[j].key == "rtpmap" ==>
      m.attributes[j].value.Some? && RtpmapOk(m.attributes[j].value.value)
  }

  /** The section at `videoMline` exists and its rtpmaps obey the rules. */
  predicate PayloadTypesOk(msg: SdpMessage, videoMline: nat)
  {
    videoMline < |msg.medias| && RtpmapsOk(msg.medias[videoMline])
  }

  method PayloadTypes(msg: SdpMessage, videoMline: nat) returns (ok: bool)
    ensures ok <==> PayloadTypesOk(msg, videoMline)
  {
    if videoMline >= |msg.medias| {
      return false;
    }
    var attrs := msg.medias[videoMline].attributes;
    var j := 0;
    while j < |attrs|
      invariant 0 <= j <= |attrs|
      invariant forall j' :: 0 <= j' < j && attrs[j'].key == "rtpmap" ==>
                  attrs[j'].value.Some? && RtpmapOk(attrs[j'].value.value)
    {
      var attr := attrs[j];
      if attr.key == "rtpmap" {
        if attr.value.None? {
          return false;
        }
        var expected := RtpmapExpected(attr.value.value);
        if expected.Some? && attr.value.value != expected.value {
          return false;
        }
      }
      j := j + 1;
    }
    return true;
  }

  /** The section at `videoMline` exists and every rtpmap in it is H264 on 101. */
  predicate PayloadTypesOnlyH264Ok(msg: SdpMessage, videoMline: nat)
  {
    && videoMline < |msg.medias|
    && forall j :: 0 <= j < |msg.medias[videoMline].attributes| &&
                   msg.medias[videoMline].attributes[j].key == "rtpmap" ==>
         msg.medias[videoMline].attributes[j].value == Some("101 H264/90000")
  }

  method PayloadTypesOnlyH264(msg: SdpMessage, videoMline: nat) returns (ok: bool)
    ensures ok <==> PayloadTypesOnlyH264Ok(msg, videoMline)
  {
    if videoMline >= |msg.medias| {
      return false;
    }
    var attrs := msg.medias[videoMline].attributes;
    var j := 0;
    while j < |attrs|
      invariant 0 <= j <= |attrs|
      invariant forall j' :: 0 <= j' < j && attrs[j'].key == "rtpmap" ==>
                  attrs[j'].value == Some("101 H264/90000")
    {
      if attrs[j].key == "rtpmap" && attrs[j].value != Some("101 H264/90000") {
        return false;
      }
      j := j + 1;
    }
    return true;
  }

  /** A description that passes the H264-only check also passes the general
      payload-type check on the same section. */
  lemma OnlyH264PassesPayloadTypes(msg: SdpMessage, videoMline: nat)
    requires PayloadTypesOnlyH264Ok(msg, videoMline)
    ensures PayloadTypesOk(msg, videoMline)
  {
    var v := "101 H264/90000";
    assert v[0] == '1' && v[1] == '0' && v[2] == '1';
    assert RtpmapExpected(v) == Some(v);
  }

  // ---------------------------------------------------------------------------
  // _count_num_sdp_media and _count_non_rejected_media

  predicate CountNumMediaOk(msg: SdpMessage, expected: nat)
  {
    |msg.medias| == expected
  }

  /** The number of sections whose port is not 0 (a port of 0 rejects a section). */
  function NonRejectedCount(medias: seq<Media>): nat
  {
    if |medias| == 0 then 0
    else NonRejectedCount(medias[..|medias| - 1]) + (if medias[|medias| - 1].port != 0 then 1 else 0)
  }

  /** The count is at most the number of sections; it is all of them iff no
      port is 0, and none iff every port is 0. */
  lemma {:induction false} NonRejectedCountBounds(medias: seq<Media>)
    ensures NonRejectedCount(medias) <= |medias|
    ensures NonRejectedCount(medias) == |medias| <==> forall i :: 0 <= i < |medias| ==> medias[i].port != 0
    ensures NonRejectedCount(medias) == 0 <==> forall i :: 0 <= i < |medias| ==> medias[i].port == 0
  {
    if |medias| > 0 {
      var init := medias[..|medias| - 1];
      NonRejectedCountBounds(init);
      assert forall i :: 0 <= i < |init| ==> init[i] == medias[i];
    }
  }

  /** Dropping the last section, as `offer_remove_last_media` does, lowers
      the section count that `_count_num_sdp_media` expects by exactly one. */
  lemma CountNumMediaAfterRemoveLast(m: SdpMessage, n: nat)
    requires |m.medias| > 0
    ensures CountNumMediaOk(WithoutLastMedia(m), n) <==> CountNumMediaOk(m, n + 1)
  {
  }

  /** When `_count_num_sdp_media` expects `n` sections and
      `_count_non_rejected_media` expects `k`, both can pass only with
      `k <= n`, and with `k == n` exactly when no section is rejected;
      expecting no sections at all means the message has none. */
  lemma CountNumMediaBoundsNonRejected(msg: SdpMessage, n: nat, k: nat)
    requires CountNumMediaOk(msg, n) && NonRejectedCount(msg.medias) == k
    ensures k <= n
    ensures k == n <==> forall i :: 0 <= i < |msg.medias| ==> msg.medias[i].port != 0
    ensures n == 0 ==> msg.medias == []
  {
    NonRejectedCountBounds(msg.medias);
  }

  method CountNonRejectedMedia(msg: SdpMessage, expected: nat) returns (ok: bool)
    ensures ok <==> NonRejectedCount(msg.medias) == expected
  {
    var nonRejected := 0;
    var i := 0;
    while i < |msg.medias|
      invariant 0 <= i <= |msg.medias|
      invariant nonRejected == NonRejectedCount(msg.medias[..i])
    {
      assert msg.medias[..i + 1][..i] == msg.medias[..i];
      if msg.medias[i].port != 0 {
        nonRejected := nonRejected + 1;
      }
      i := i + 1;
    }
    assert msg.medias[..i] == msg.medias;
    ok := nonRejected == expected;
  }

  // ---------------------------------------------------------------------------
  // _check_bundle_only_media

  /** Every section has a `mid` value, and a section whose mid is listed
      carries a `bundle-only` attribute. */
  predicate BundleOnlyMediaOk(msg: SdpMessage, expected: seq<string>)
  {
    forall i :: 0 <= i < |msg.medias| ==>
      var mid := AttributeVal(msg.medias[i].attributes, "mid");
      mid.Some? && (mid.value in expected ==> HasAttributeKey(msg.medias[i].attributes, "bundle-only"))
  }

  method BundleOnlyMedia(msg: SdpMessage, expected: seq<string>) returns (ok: bool)
    ensures ok <==> BundleOnlyMediaOk(msg, expected)
  {
    var i := 0;
    while i < |msg.medias|
      invariant 0 <= i <= |msg.medias|
      invariant forall i' :: 0 <= i' < i ==>
                  var mid := AttributeVal(msg.medias[i'].attributes, "mid");
                  mid.Some? && (mid.value in expected ==> HasAttributeKey(msg.medias[i'].attributes, "bundle-only"))
    {
      var attrs := msg.medias[i].attributes;
      var mid := AttributeVal(attrs, "mid");
      if mid.None? {
        return false;
      }
      if mid.value in expected && !HasAttributeKey(attrs, "bundle-only") {
        return false;
      }
      i := i + 1;
    }
    return true;
  }

  // ---------------------------------------------------------------------------
  // _verify_media_types

  /** Section `i` exists in `expected` and has that media type. */
  predicate MediaTypeAt(msg: SdpMessage, expected: seq<string>, i: nat)
    requires i < |msg.medias|
  {
    i < |expected| && msg.medias[i].media == expected[i]
  }

  /** Every section has the expected media type. */
  predicate MediaTypesOk(msg: SdpMessage, expected: seq<string>)
  {
    forall i: nat :: i < |msg.medias| ==> MediaTypeAt(msg, expected, i)
  }

  method VerifyMediaTypes(msg: SdpMessage, expected: seq<string>) returns (ok: bool)
    ensures ok <==> MediaTypesOk(msg, expected)
  {
    var i: nat := 0;
    while i < |msg.medias|
      invariant i <= |msg.medias|
      invariant forall i': nat :: i' < i ==> MediaTypeAt(msg, expected, i')
    {
      if i >= |expected| || msg.medias[i].media != expected[i] {
        assert !MediaTypeAt(msg, expected, i);
        return false;
      }
      i := i + 1;
    }
    return true;
  }

  // ---------------------------------------------------------------------------
  // sdp_media_equal_attribute

  /** Section `i` of both messages carries the same first value of
      attribute `key` (both absent counts as the same). */
  predicate SameAttributeAt(msg: SdpMessage, previous: SdpMessage, key: string, i: nat)
    requires i < |msg.medias| && i < |previous.medias|
  {
    AttributeVal(msg.medias[i].attributes, key) == AttributeVal(previous.medias[i].attributes, key)
  }

  /** Over the sections both messages have, the first value of attribute
      `key` is the same in both. */
  predicate MediaEqualAttributeOk(msg: SdpMessage, previous: SdpMessage, key: string)
  {
    forall i: nat :: i < |msg.medias| && i < |previous.medias| ==> SameAttributeAt(msg, previous, key, i)
  }

  method MediaEqualAttribute(msg: SdpMessage, previous: SdpMessage, key: string) returns (ok: bool)
    ensures ok <==> MediaEqualAttributeOk(msg, previous, key)
  {
    var n := if |previous.medias| < |msg.medias| then |previous.medias| else |msg.medias|;
    var i: nat := 0;
    while i < n
      invariant i <= n
      invariant forall i': nat :: i' < i ==> SameAttributeAt(msg, previous, key, i')
    {
      if AttributeVal(msg.medias[i].attributes, key) != AttributeVal(previous.medias[i].attributes, key) {
        assert !SameAttributeAt(msg, previous, key, i);
        return false;
      }
      i := i + 1;
    }
    return true;
  }

  // ---------------------------------------------------------------------------
  // The validator chain (struct validate_sdp) and _check_validate_sdp's loop

  /** One link of a validation chain, with its user data. */
  datatype Validator =
    | CountNumMedia(count: nat)
    | MediaDirections(directions: seq<string>)
    | NoDuplicatePayloadTypes
    | CountMediaFormats(counts: seq<nat>)
    | MediaSetups(setups: seq<string>)
    | RtpmapPayloadTypes(videoMline: nat)
    | RtpmapOnlyH264(videoMline: nat)
    | CountNonRejected(count: nat)
    | BundleOnly(mids: seq<string>)
    | MediaTypes(types: seq<string>)

  /** What the validator accepts. */
  predicate Holds(v: Validator, msg: SdpMessage)
  {
    match v
    case CountNumMedia(n) => CountNumMediaOk(msg, n)
    case MediaDirections(d) => DirectionsOk(msg, d)
    case NoDuplicatePayloadTypes => NoDuplicatePayloadsOk(msg)
    case CountMediaFormats(c) => CountFormatsOk(msg, c)
    case MediaSetups(s) => SetupOk(msg, s)
    case RtpmapPayloadTypes(l) => PayloadTypesOk(msg, l)
    case RtpmapOnlyH264(l) => PayloadTypesOnlyH264Ok(msg, l)
    case CountNonRejected(n) => NonRejectedCount(msg.medias) == n
    case BundleOnly(mids) => BundleOnlyMediaOk(msg, mids)
    case MediaTypes(t) => MediaTypesOk(msg, t)
  }

  method RunValidator(v: Validator, msg: SdpMessage) returns (ok: bool)
    ensures ok <==> Holds(v, msg)
  {
    match v
    case CountNumMedia(n) => ok := |msg.medias| == n;
    case MediaDirections(d) => ok := MediaDirection(msg, d);
    case NoDuplicatePayloadTypes => ok := NoDuplicatePayloads(msg);
    case CountMediaFormats(c) => ok := CountFormats(msg, c);
    case MediaSetups(s) => ok := MediaSetup(msg, s);
    case RtpmapPayloadTypes(l) => ok := PayloadTypes(msg, l);
    case RtpmapOnlyH264(l) => ok := PayloadTypesOnlyH264(msg, l);
    case CountNonRejected(n) => ok := CountNonRejectedMedia(msg, n);
    case BundleOnly(mids) => ok := BundleOnlyMedia(msg, mids);
    case MediaTypes(t) => ok := VerifyMediaTypes(msg, t);
  }

  /** The chain passes: every validator accepts the description. With a
      non-empty chain the description must exist (each validator reads
      `desc->sdp`). */
  predicate ChainHolds(chain: seq<Validator>, desc: Option<SessionDescription>)
  {
    |chain| == 0 || (desc.Some? && forall k :: 0 <= k < |chain| ==> Holds(chain[k], desc.value.sdp))
  }

  /** Runs the chain in order; the first validator that fails aborts. */
  method RunChain(chain: seq<Validator>, desc: Option<SessionDescription>) returns (ok: bool)
    ensures ok <==> ChainHolds(chain, desc)
  {
    if |chain| > 0 && desc.None? {
      return false;
    }
    var k := 0;
    while k < |chain|
      invariant 0 <= k <= |chain|
      invariant k > 0 ==> desc.Some?
      invariant forall k' :: 0 <= k' < k ==> Holds(chain[k'], desc.value.sdp)
    {
      ok := RunValidator(chain[k], desc.value.sdp);
      if !ok {
        return;
      }
      k := k + 1;
    }
    return true;
  }
}
