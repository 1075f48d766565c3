# Verified models of five small pieces of a GStreamer build tree

This project models, in Dafny, five small pieces of a GStreamer-based build
tree, and proves what each of them promises.

1. **The webrtcbin test harness** (`gst-plugins-bad/tests/check/elements/webrtcbin.c`).
   - The state of `struct test_webrtc` and the callbacks that move it forward: `TestState` from NEW to CUSTOM, the two set counters, the stored offer and answer, and the hooks a test installs.
   - The offeror/answerer macros and the wait-mask test.
   - The SDP validators the tests chain onto an offer or answer, and `offer_remove_last_media`.
   - SDP messages are abstract: a list of media sections, each with a media type, a port, formats and key/value attributes. An ICE candidate arrives already parsed.
2. **x264's `version.py`.**
   - The API-version scan of `x264.h`.
   - The revision and commit hash from `git rev-list` line counts, a `modified:` flag, or the `X264_VERSION` line of a shipped `x264_config.h`.
   - The four output formats.
   - Python's `str.strip`, `str.split(sep)`, `str.split()` and slicing are modelled exactly, in module `PyStr`.
3. **The libnice fallback test** (`libnice/tests/test-fallback.c`). These are the file-level globals and the signal callbacks that update them. Each callback returns whether it quits the main loop.
4. **The GES title source** (`gst-editing-services/ges/ges-title-source.c`). It covers:
   - the stored title properties and their defaults;
   - the eight setters and their forwarding to the child elements;
   - `create_source`'s copy into fresh elements;
   - `dispose`;
   - `_lookup_child`'s renaming of property names.
5. **The FDK-AAC channel-layout table** (`subprojects/gst-plugins-bad/ext/fdkaac/gstfdkaac.c`). The table is given for each of the four settings of its two feature flags, with its well-formedness proved.

## Shape of the model

- **Code that changes state in place becomes a class with the source's fields.** This covers the harness, the fallback globals and the title source.
- **Each class has a `Snapshot()` function** that gives its fields as one value.
- **Every callback has a pure step function, and its method is proved to perform that step.** The method's postcondition is the equation `Snapshot() == Step(old(Snapshot()), …)`.
- **What the source promises is proved as lemmas about the step functions.**
- **Each loop over media sections or attributes is a method proved equivalent to a declarative predicate.** The validators are written this way.
- **The script's two `for line in f` loops are methods.** They are proved equal to the functions that scan the same lines.
- **A failed `fail_unless`/`g_assert`/`g_error` is a result with `ok == false`.** The test case ends there. A GLib critical warning is a failed check too, because the test runner makes criticals fatal. Examples are a NULL string handed to a GLib string function and an m-line index out of range.
- **Reading past an expected-value array or through a missing description becomes a failed check.** C leaves both undefined. Integer overflow is the exception; the next item and "## Left out" say how each counter and `atoi` are treated.
- **Fixed-width integers are explicit.**
  - `CInts.uint32` and `CInts.int32` hold `guint` and `gint`.
  - `CInts.Inc` is unsigned `++` with wrap-around.
  - `CInts.WrapInt32` gives two's-complement wrap-around for a `gint` counter. `global_ragent_read += len` adds a `guint` to a `gint`, so C adds modulo 2^32 and converts back to `gint`; that conversion is implementation-defined, and GCC and Clang wrap.
- **Python's `int` is unbounded,** like Dafny's.

## Model

| member | source | states |
|---|---|---|
| CInts.Inc | libnice/tests/test-fallback.c:139-142 | `guint` `++` is addition modulo 2^32 |
| CInts.WrapInt32 | libnice/tests/test-fallback.c:106 | the `gint` result is congruent to the exact sum modulo 2^32, and equal to it when it fits |
| Sdp.AttributeValFirst | gst-plugins-bad/tests/check/elements/webrtcbin.c:2886-2907 | the value of the first attribute with the key; none when no attribute has it |
| Sdp.WithoutLastMediaInverse | gst-plugins-bad/tests/check/elements/webrtcbin.c:3454-3471 | the rebuilt message has one media section fewer; putting the dropped section back restores the original, session attributes in order |
| Sdp.RemoveLastMedia | gst-plugins-bad/tests/check/elements/webrtcbin.c:3425-3476 | the copy loop succeeds iff there is a media section and then yields exactly the message without its last one |
| SdpValidators.CheckMediaDirection | gst-plugins-bad/tests/check/elements/webrtcbin.c:887-915 | the attribute loop accepts iff the section has exactly one of inactive/sendonly/recvonly/sendrecv and it is the expected one |
| SdpValidators.MediaDirection | gst-plugins-bad/tests/check/elements/webrtcbin.c:875-918 | accepts iff every audio or video section passes that check against its own expected entry |
| SdpValidators.CheckDistinctPayloadTypes | gst-plugins-bad/tests/check/elements/webrtcbin.c:928-939 | accepts iff no two formats of the section have the same `atoi` value |
| SdpValidators.NoDuplicatePayloads | gst-plugins-bad/tests/check/elements/webrtcbin.c:920-942 | accepts iff no section repeats a payload type |
| SdpValidators.CountFormats | gst-plugins-bad/tests/check/elements/webrtcbin.c:944-956 | accepts iff every section has as many formats as its expected entry |
| SdpValidators.CheckMediaSetup | gst-plugins-bad/tests/check/elements/webrtcbin.c:967-980 | the attribute loop accepts iff the section has exactly one `setup` attribute and its value is the expected one |
| SdpValidators.MediaSetup | gst-plugins-bad/tests/check/elements/webrtcbin.c:958-982 | accepts iff every section passes that check |
| SdpValidators.RtpmapPrefixesExclusive | gst-plugins-bad/tests/check/elements/webrtcbin.c:1217-1230 | no rtpmap value starts with two of the rule prefixes, so at most one rule applies |
| SdpValidators.RtpmapOkIffAllRules | gst-plugins-bad/tests/check/elements/webrtcbin.c:1217-1230 | an rtpmap passes iff it equals the full value of every rule whose prefix it starts with |
| SdpValidators.PayloadTypes | gst-plugins-bad/tests/check/elements/webrtcbin.c:1204-1233 | accepts iff the video section exists and every rtpmap in it passes the rules |
| SdpValidators.PayloadTypesOnlyH264 | gst-plugins-bad/tests/check/elements/webrtcbin.c:4143-4161 | accepts iff the video section exists and every rtpmap in it is `101 H264/90000` |
| SdpValidators.OnlyH264PassesPayloadTypes | gst-plugins-bad/tests/check/elements/webrtcbin.c:4143-4161 | an answer that passes the H.264-only check also passes the general payload-type check |
| SdpValidators.NonRejectedCountBounds | gst-plugins-bad/tests/check/elements/webrtcbin.c:2443-2461 | at most the number of sections; all of them iff no port is 0; none iff every port is 0 |
| SdpValidators.CountNumMediaAfterRemoveLast | gst-plugins-bad/tests/check/elements/webrtcbin.c:852-858 | removing the last section turns an expected count of `n + 1` into `n`, in both directions |
| SdpValidators.CountNumMediaBoundsNonRejected | gst-plugins-bad/tests/check/elements/webrtcbin.c:852-858 | a section count of `n` and a non-rejected count of `k` agree only when `k <= n`, with equality exactly when no port is 0; a count of 0 means no sections |
| SdpValidators.CountNonRejectedMedia | gst-plugins-bad/tests/check/elements/webrtcbin.c:2443-2461 | the loop accepts iff the number of sections with a non-zero port is the expected one |
| SdpValidators.BundleOnlyMedia | gst-plugins-bad/tests/check/elements/webrtcbin.c:2486-2500 | accepts iff every section has a `mid`, and those whose mid is listed carry `bundle-only` |
| SdpValidators.VerifyMediaTypes | gst-plugins-bad/tests/check/elements/webrtcbin.c:3667-3679 | accepts iff each section's media type is the expected entry at its index |
| SdpValidators.MediaEqualAttribute | gst-plugins-bad/tests/check/elements/webrtcbin.c:2885-2907 | accepts iff each section has the same value for the key as the section at the same index of the earlier message |
| SdpValidators.RunValidator | gst-plugins-bad/tests/check/elements/webrtcbin.c:789-805 | running one validator accepts iff its predicate holds |
| SdpValidators.RunChain | gst-plugins-bad/tests/check/elements/webrtcbin.c:789-805 | the chain accepts iff it is empty, or a description exists and every validator holds on it |
| WebrtcHarness.Other | gst-plugins-bad/tests/check/elements/webrtcbin.c:403-409 | the other element is never the element itself |
| WebrtcHarness.OfferorAndAnswerer | gst-plugins-bad/tests/check/elements/webrtcbin.c:41-43 | offeror and answerer differ; `offerror == 1` makes webrtc1 the offeror; the answerer is never an offer element |
| WebrtcHarness.SdpLocality | gst-plugins-bad/tests/check/elements/webrtcbin.c:45 | a description is local iff (the element is the offeror) equals (the description is an offer) |
| WebrtcHarness.StateBit | gst-plugins-bad/tests/check/elements/webrtcbin.c:694-703 | the bit of a state is `1 << state` |
| WebrtcHarness.StateBitsDisjoint | gst-plugins-bad/tests/check/elements/webrtcbin.c:47-58 | two states' bits overlap iff the states are equal |
| WebrtcHarness.WaitSatisfiedMaskOf | gst-plugins-bad/tests/check/elements/webrtcbin.c:694-703 | a wait on the mask of a set of states is satisfied exactly by the states of that set |
| WebrtcHarness.AnswerErrorEosMaskBits | gst-plugins-bad/tests/check/elements/webrtcbin.c:705-713 | the answer/error/EOS mask is 0xE0 and is satisfied exactly by ANSWER_SET, EOS and ERROR |
| WebrtcHarness.IcePortRanges | gst-plugins-bad/tests/check/elements/webrtcbin.c:1052-1093 | a host port passes for webrtc1 iff it is 9 or in 11000..11999, and for webrtc2 iff it is 9 or in 21000..21999; only 9 passes for both |
| WebrtcHarness.OfferSetTransition | gst-plugins-bad/tests/check/elements/webrtcbin.c:231-247 | the counter always increments and only the counter and the state can change; below 2 nothing else changes; OFFER_SET is reached only from OFFER_CREATED at a count of 2 or more; without a hook, from 2 on, OFFER_CREATED becomes OFFER_SET and every other state is kept; the error hook accepts only an error reply and then leaves CUSTOM, and on abort the state is as it was |
| WebrtcHarness.AnswerSetTransition | gst-plugins-bad/tests/check/elements/webrtcbin.c:157-173 | the same for the answer counter and ANSWER_SET: only the counter and the state change; without a hook, from 2 on, ANSWER_CREATED becomes ANSWER_SET and any other state is kept; the error hook accepts only an error reply and then leaves CUSTOM |
| WebrtcHarness.NegotiationNeededTransition | gst-plugins-bad/tests/check/elements/webrtcbin.c:384-394 | NEW becomes NEGOTIATION_NEEDED and every other state stays; the hit hook sets the element's flag bit; nothing else changes |
| WebrtcHarness.CreationErrorTransition | gst-plugins-bad/tests/check/elements/webrtcbin.c:175-306 | whatever creation hook is installed, a failed creation that goes on stores no description, signals nothing, and sets ERROR only from a state below ERROR, so CUSTOM stays; nothing but the state changes, except that the answer-side remove-last-media hook also shortens the stored offer; an aborting callback leaves the harness untouched; a second reply always aborts, and with no hook the first never does |
| WebrtcHarness.OfferCreatedSignals | gst-plugins-bad/tests/check/elements/webrtcbin.c:249-306 | with no offer-created hook installed, a created offer is stored, the state becomes OFFER_CREATED, and it is set locally on the offeror and remotely on the answerer before the answer is requested; a second offer aborts |
| WebrtcHarness.AnswerCreatedSignals | gst-plugins-bad/tests/check/elements/webrtcbin.c:175-228 | with no answer-created hook installed, a created answer is stored, the state becomes ANSWER_CREATED, and it is set locally on the answerer and then remotely on the offeror; nothing else changes; a second answer aborts with the harness untouched |
| WebrtcHarness.RemoveLastMediaOffer | gst-plugins-bad/tests/check/elements/webrtcbin.c:3425-3476 | as offer hook, the stored and signalled offer is the created one without its last media section; it aborts on an offer with no media |
| WebrtcHarness.IceCandidateForwarded | gst-plugins-bad/tests/check/elements/webrtcbin.c:396-411 | a candidate changes no state and is handed unchanged to the other element, unless the port-restriction hook rejects it |
| WebrtcHarness.ResetAllowsRenegotiation | gst-plugins-bad/tests/check/elements/webrtcbin.c:604-617 | reset drops both descriptions, zeroes both counters and sets NEGOTIATION_NEEDED, and changes nothing else; with no offer-created hook installed, a new offer can then be stored |
| WebrtcHarness.FullNegotiation | gst-plugins-bad/tests/check/elements/webrtcbin.c:157-306 | with no hooks, offer created then set twice, then answer created then set twice, ends in ANSWER_SET, which ends the answer/error/EOS wait |
| WebrtcHarness.BusMessageTransition | gst-plugins-bad/tests/check/elements/webrtcbin.c:308-382 | an error message sets ERROR and an EOS sets EOS, other messages keep the state, and nothing but the state changes; the default no-errors hook then aborts on the error; such a message always satisfies the answer/error/EOS wait |
| WebrtcHarness.TestWebrtc.constructor | gst-plugins-bad/tests/check/elements/webrtcbin.c:534-602 | the harness starts NEW, with no descriptions, zero counters and webrtc1 as offeror; the negotiation, ICE and creation hooks fail the test if reached, no set hook is installed, and bus errors abort |
| WebrtcHarness.TestWebrtc.CheckValidateSdp | gst-plugins-bad/tests/check/elements/webrtcbin.c:789-805 | the chain runs on the offer for the offer element and on the answer otherwise |
| WebrtcHarness.TestWebrtc.RunCreatedHook | gst-plugins-bad/tests/check/elements/webrtcbin.c:3425-3476 | performs the created-hook step |
| WebrtcHarness.TestWebrtc.OnOfferReceived | gst-plugins-bad/tests/check/elements/webrtcbin.c:249-306 | performs the offer-received step |
| WebrtcHarness.TestWebrtc.OnAnswerReceived | gst-plugins-bad/tests/check/elements/webrtcbin.c:175-229 | performs the answer-received step |
| WebrtcHarness.TestWebrtc.RunSetHook | gst-plugins-bad/tests/check/elements/webrtcbin.c:3478-3491 | performs the set-hook step |
| WebrtcHarness.TestWebrtc.OnOfferSet | gst-plugins-bad/tests/check/elements/webrtcbin.c:231-247 | performs the offer-set step |
| WebrtcHarness.TestWebrtc.OnAnswerSet | gst-plugins-bad/tests/check/elements/webrtcbin.c:157-173 | performs the answer-set step |
| WebrtcHarness.TestWebrtc.OnNegotiationNeeded | gst-plugins-bad/tests/check/elements/webrtcbin.c:384-394 | performs the negotiation-needed step |
| WebrtcHarness.TestWebrtc.OnIceCandidate | gst-plugins-bad/tests/check/elements/webrtcbin.c:396-411 | performs the ICE-candidate step |
| WebrtcHarness.TestWebrtc.OnBusMessage | gst-plugins-bad/tests/check/elements/webrtcbin.c:308-382 | performs the bus-message step |
| WebrtcHarness.TestWebrtc.ResetNegotiation | gst-plugins-bad/tests/check/elements/webrtcbin.c:604-617 | performs the reset step |
| WebrtcHarness.TestWebrtc.CreateOffer | gst-plugins-bad/tests/check/elements/webrtcbin.c:683-691 | asks the offeror, and only it, to create an offer |
| Decimal.DigitChar | subprojects/x264/version.py:73 | the character is a digit whose value is the given one |
| Decimal.NatToString | subprojects/x264/version.py:73 | a non-empty string of digits with no leading zero |
| Decimal.IntToString | subprojects/x264/version.py:73 | non-empty, starts with `-` iff negative, ends in a digit |
| Decimal.ReadNatToString | subprojects/x264/version.py:73 | reading the digits a natural number is written with gives it back |
| Decimal.AtoiOfIntToString | gst-plugins-bad/tests/check/elements/webrtcbin.c:931 | `atoi` of the decimal rendering of an integer is that integer |
| Decimal.AtoiOfIntToStringThen | gst-plugins-bad/tests/check/elements/webrtcbin.c:931 | the same with any tail that does not start with a digit |
| PyStr.LStripProperties | subprojects/x264/version.py:34 | `lstrip` drops exactly the longest prefix of stripped characters |
| PyStr.RStripProperties | subprojects/x264/version.py:34 | `rstrip` drops exactly the longest suffix of stripped characters |
| PyStr.StripIsSlice | subprojects/x264/version.py:34 | `strip` returns a slice of its input; everything outside it is a stripped character |
| PyStr.StripEnds | subprojects/x264/version.py:34 | the result neither starts nor ends with a stripped character, and is empty iff every character is stripped |
| PyStr.StripIdempotent | subprojects/x264/version.py:89 | stripping twice is stripping once |
| PyStr.SplitOnProperties | subprojects/x264/version.py:61 | `split(sep)` gives one piece more than there are separators, none containing one; the first piece is a prefix followed by the separator |
| PyStr.JoinSplitOn | subprojects/x264/version.py:61 | joining the pieces with the separator gives back the string |
| PyStr.SplitWhitespaceWords | subprojects/x264/version.py:89-90 | `split()` gives non-empty whitespace-free words, and none iff the string is all whitespace |
| PyStr.SplitWhitespaceJoin | subprojects/x264/version.py:89-90 | words joined by a space split back into the same words |
| PyStr.SplitWhitespaceAppendSpace | subprojects/x264/version.py:89-90 | a trailing whitespace character adds no token |
| PyStr.SplitWhitespaceAppendSpaces | subprojects/x264/version.py:89-90 | a trailing run of whitespace adds no token |
| PyStr.SplitWhitespacePrependSpaces | subprojects/x264/version.py:89-90 | a leading run of whitespace adds no token |
| PyStr.Slice | subprojects/x264/version.py:62 | Python slicing clamps both bounds to the string and is empty when they cross |
| X264Version.ApiVersion | subprojects/x264/version.py:30-41 | an API version found is never empty |
| X264Version.ApiVersionIsFirstMatch | subprojects/x264/version.py:30-41 | the API version is the stripped text after the 19-character prefix of the first `#define X264_BUILD ` line where it is non-empty |
| X264Version.NoApiVersion | subprojects/x264/version.py:30-41 | there is none iff no line gives a non-empty value |
| X264Version.ScanApiVersion | subprojects/x264/version.py:30-37 | the loop stops at that first line; without one it ends with `None` or an empty string |
| X264Version.LineCountAtLeastOne | subprojects/x264/version.py:61 | a line count is one more than the newlines inside the stripped output, so at least 1, and 1 for empty output |
| X264Version.FirstLineHashIsPrefix | subprojects/x264/version.py:62 | the commit is the first 7 characters of the first line, or all of it when shorter |
| X264Version.RevisionTextReadsBack | subprojects/x264/version.py:64-83 | the revision starts with `localver - ver_diff`, has `+ver_diff` iff `ver_diff` is non-zero, and ends in `M` iff the status shows `modified:` |
| X264Version.RevisionAlwaysHasPlus | subprojects/x264/version.py:64-75 | because a line count is never 0, a git revision with `localver > 1` always carries a `+` |
| X264Version.TarballLastLineWins | subprojects/x264/version.py:85-91 | the last `#define X264_VERSION ` line decides the revision (its first token without its first character) and the commit (its last token) |
| X264Version.TarballEmptyLineFails | subprojects/x264/version.py:85-91 | a version line with no token raises, whatever follows |
| X264Version.ScanTarball | subprojects/x264/version.py:85-91 | the loop agrees with the tarball scan, including the failing case |
| X264Version.GitVersions | subprojects/x264/version.py:56-83 | the git branch: a failing `rev-list` or `status` aborts with -1, undecodable output with 1; one commit gives revision `0`, more give `<localver - ver_diff>+<ver_diff>` with `M` when the status reports a modification; the commit is the first 7 characters of the first line |
| X264Version.FindVersions | subprojects/x264/version.py:47-98 | git when available, else the config file, else no version source; a failed git run aborts with -1 and undecodable output with 1 |
| X264Version.Run | subprojects/x264/version.py:30-113 | no API version exits -1 with no output; `--build` prints the API version; the other modes print `<ver>`, `<commit>`, `0.<api>.<ver>` or `0.<api>.<ver> <commit>`; with no version source it prints `0.<api>.999` and exits -1 |
| IceFallback.RecvCounting | libnice/tests/test-fallback.c:88-111 | a non-payload packet changes nothing and is an error unless non-data is accepted; only agent 2's payload adds 16 to the read counter, and the loop quits exactly when that reaches the exit value |
| IceFallback.PayloadReceived | libnice/tests/test-fallback.c:327-334 | after the read counter is zeroed and its exit set to 16, agent 2 receiving the payload quits with the counter at 16 |
| IceFallback.SafeRunRejectsNonData | libnice/tests/test-fallback.c:364-375 | after the safe run's reset every non-payload packet is an error |
| IceFallback.GatheringDone | libnice/tests/test-fallback.c:113-128 | sets only the calling agent's flag, and quits iff both flags are set |
| IceFallback.GatheringQuitsAtSecond | libnice/tests/test-fallback.c:113-128 | after a reset, the first agent's gathering does not quit and the other's then does |
| IceFallback.StateChangedCounts | libnice/tests/test-fallback.c:130-160 | records the calling agent's state, counts READY and FAILED, and changes nothing else |
| IceFallback.StateChangedQuits | libnice/tests/test-fallback.c:130-160 | quits iff the ready counter reaches its exit value or the failed counter reaches its own |
| IceFallback.FourReadyQuit | libnice/tests/test-fallback.c:130-160 | after a reset, four READY changes quit at the fourth and not before |
| IceFallback.SelectedPairCounts | libnice/tests/test-fallback.c:162-174 | increments only the calling agent's pair counter |
| IceFallback.ResetValues | libnice/tests/test-fallback.c:229-239 | counters and flags cleared, both exits 4, read exit -1, agent states and read counter kept; the safe run also stops accepting non-data |
| IceFallback.ResetReadNeverQuitsEarly | libnice/tests/test-fallback.c:229-239 | with read exit -1, receiving a payload at a non-negative read count never quits |
| IceFallback.FallbackGlobals.constructor | libnice/tests/test-fallback.c:52-67 | the globals' initial values |
| IceFallback.FallbackGlobals.OnRecv | libnice/tests/test-fallback.c:88-111 | performs the receive step |
| IceFallback.FallbackGlobals.OnGatheringDone | libnice/tests/test-fallback.c:113-128 | performs the gathering-done step |
| IceFallback.FallbackGlobals.OnStateChanged | libnice/tests/test-fallback.c:130-160 | performs the state-change step |
| IceFallback.FallbackGlobals.OnNewSelectedPair | libnice/tests/test-fallback.c:162-174 | performs the selected-pair step |
| IceFallback.FallbackGlobals.OnInitialBindingRequest | libnice/tests/test-fallback.c:185-196 | sets the calling agent's binding-request flag |
| IceFallback.FallbackGlobals.Reset | libnice/tests/test-fallback.c:364-375 | performs either run's reset |
| IceFallback.FallbackGlobals.ExpectPayload | libnice/tests/test-fallback.c:327-330 | zeroes the read counter and sets its exit to 16 |
| GesTitleSource.InitialValues | gst-editing-services/ges/ges-title-source.c:117-132 | text `""`, font `Serif 36`, both colours 0xFFFFFFFF, both positions 0.5, default alignments, no elements |
| GesTitleSource.LookupChildAliases | gst-editing-services/ges/ges-title-source.c:80-86 | `background` and `GstTextOverlay:background` become `foreground-color`; every other name is passed unchanged |
| GesTitleSource.LookupChildIdempotent | gst-editing-services/ges/ges-title-source.c:80-86 | renaming a renamed name changes nothing |
| GesTitleSource.SetChangesOnlyItsField | gst-editing-services/ges/ges-title-source.c:252-387 | each setter stores its value in its own field and leaves every other field |
| GesTitleSource.SetForwardsToExistingElement | gst-editing-services/ges/ges-title-source.c:252-387 | each setter writes its value into the text element (the background element for the background colour) iff that element exists, and changes no other element property |
| GesTitleSource.SetKeepsSynced | gst-editing-services/ges/ges-title-source.c:252-387 | a setter keeps every existing element showing the stored properties |
| GesTitleSource.CreateSyncs | gst-editing-services/ges/ges-title-source.c:198-230 | after `create_source` both references are set, the text element shows every stored field, and the background is solid in the background colour |
| GesTitleSource.CreateThenSetStaysSynced | gst-editing-services/ges/ges-title-source.c:179-387 | any run of setters after `create_source` keeps both elements showing the stored properties |
| GesTitleSource.SetAllWithoutElements | gst-editing-services/ges/ges-title-source.c:252-387 | before `create_source`, setters never create an element |
| GesTitleSource.DisposeDropsElements | gst-editing-services/ges/ges-title-source.c:146-154 | dispose leaves both element references null and the property fields unchanged, and a disposed source is trivially in step with its (absent) elements |
| GesTitleSource.TitleSource.constructor | gst-editing-services/ges/ges-title-source.c:117-132 | performs init |
| GesTitleSource.TitleSource.SetText | gst-editing-services/ges/ges-title-source.c:253-263 | performs the text setter |
| GesTitleSource.TitleSource.SetFontDesc | gst-editing-services/ges/ges-title-source.c:275-285 | performs the font setter |
| GesTitleSource.TitleSource.SetVAlignment | gst-editing-services/ges/ges-title-source.c:295-302 | performs the vertical-alignment setter |
| GesTitleSource.TitleSource.SetHAlignment | gst-editing-services/ges/ges-title-source.c:312-319 | performs the horizontal-alignment setter |
| GesTitleSource.TitleSource.SetTextColor | gst-editing-services/ges/ges-title-source.c:329-336 | performs the text-colour setter |
| GesTitleSource.TitleSource.SetBackgroundColor | gst-editing-services/ges/ges-title-source.c:346-353 | performs the background-colour setter, forwarding to the background element |
| GesTitleSource.TitleSource.SetXPos | gst-editing-services/ges/ges-title-source.c:363-370 | performs the horizontal-position setter |
| GesTitleSource.TitleSource.SetYPos | gst-editing-services/ges/ges-title-source.c:380-387 | performs the vertical-position setter |
| GesTitleSource.TitleSource.CreateSource | gst-editing-services/ges/ges-title-source.c:179-238 | copies the stored fields into the given elements and keeps a reference to each |
| GesTitleSource.TitleSource.Dispose | gst-editing-services/ges/ges-title-source.c:134-157 | drops both element references |
| FdkAac.TableWellFormed | subprojects/gst-plugins-bad/ext/fdkaac/gstfdkaac.c:31-231 | for all four flag settings, the table ends with the `{0, MODE_INVALID}` sentinel, and every earlier entry has channels, lists exactly that many pairwise distinct positions, starts with FRONT_CENTER from 3 channels, contains LFE1 from 6, and has its mode's channel count |
| FdkAac.ModeDeterminesChannels | subprojects/gst-plugins-bad/ext/fdkaac/gstfdkaac.c:52-98 | two entries with the same mode have the same channel count |

## Left out

- webrtcbin.c: the `webrtcbin` element itself, threads, `GMutex`/`GCond`, the bus thread, the main loop, promises and pipeline setup. Callbacks are run one at a time, and their replies and signals are values.
- webrtcbin.c: the stats validators (doubles and `GstStructure` lookups), the candidate regular expression (a candidate arrives parsed), `_check_bundle_tag` (its parser is not part of this model) and the pad, data-channel and transceiver callbacks.
- webrtcbin.c: the waiting loop of `test_webrtc_wait_for_state_mask` is concurrency. Only its test, `WaitSatisfied`, is modelled.
- version.py: argument parsing, opening files, `subprocess.run`, `shutil.which`, the `os.path` checks and the warnings written to standard error. Their results are fields of `Checkout`.
- version.py: a failed `decode('ascii')` raises, and that is modelled as exit code 1. Python's `int` is written as its decimal string, so `ver = 0` is the string `"0"`.
- test-fallback.c: the ICE agents, sockets, candidate gathering, the timer abort, `main` and the debug output. A callback's agent is the number 1 or 2 its user data carries. The NICE component states READY (4), FAILED (5) and LAST (6) come from libnice's `agent.h`, which is not part of this model.
- WebrtcHarness.OfferCreatedSignals: the success path is stated only with no offer-created hook. RemoveLastMediaOffer covers the remove-last-media hook. With a validator hook, the model runs the same step but proves no separate lemma for it.
- WebrtcHarness.AnswerCreatedSignals: likewise stated only with no answer-created hook.
- IceFallback.RecvCounting: `global_ragent_read += len` is an unsigned add followed by an implementation-defined conversion to `gint`. The model fixes that conversion as two's-complement wrap-around, as GCC and Clang do.
- IceFallback.SelectedPairCounts: `++global_lagent_cands` and `++global_ragent_cands` are on plain `int`, where overflow is undefined behaviour in C. The model wraps silently instead of marking that step as undefined.
- WebrtcHarness.IcePortOk: the port is the exact value of the regular expression's `\d+` group, while the source stores `atoi (candidate_port)` in a `guint`. A port text past the `int` range is undefined in C. glibc gives `(int) strtol`, converted to `guint`, so `"4294978297"` reads as 11001 and passes for webrtc1, while the model rejects it. Such ports are not modelled.
- SdpValidators.CheckDistinctPayloadTypes: `Decimal.Atoi` is unbounded, while glibc's `atoi` is `(int) strtol (s, NULL, 10)`. A payload number outside the `int` range is read differently: `atoi ("4294967392")` gives 96 on a 64-bit `long`, so formats that C takes as duplicates can be distinct here. SdpValidators.NoDuplicatePayloads inherits this.
- ges-title-source.c: the getters (they read back through the child-property API), GObject type registration, the bin, pads, ghost pad and child-property registration of `create_source`, and freeing memory. Positions are stored as reals and never computed with.
- GesTitleSource: the parent class's property lookup is not modelled. `LookupChild` gives the name that the lookup is handed.
- GesTitleSource: `DEFAULT_HALIGNMENT`, `DEFAULT_VALIGNMENT` and the alignment enumerations come from GES headers that are not part of this model. Center and baseline are GES's defaults.
- GesTitleSource.TitleSource.Dispose: `ges_title_source_dispose` frees `text` and `font_desc` but leaves the pointers set. A second dispose, or a later `set_text` or `set_font_desc` (whose `if (priv->text) g_free (priv->text)` runs again), is then a double free. The model keeps both strings as ordinary values, so Dispose is idempotent and a setter after it is harmless. This use-after-free is not modelled; the property fields after Dispose say what the object would hold if it had not freed them.
- gstfdkaac.c: the positions after the first `channels` of each entry (C zero-fills them).
