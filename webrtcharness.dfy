/** The webrtcbin test harness (`struct test_webrtc`): two webrtcbin elements,
    a shared test state, the descriptions created so far, two "set" counters
    and the hooks a test installs. The GLib signal handlers and promise
    callbacks that drive it are the methods of `TestWebrtc`; each is specified
    by a pure step function on the harness value, and the harness's promises
    are lemmas about those functions. The mutex, the condition variable, the
    bus thread and the elements' own negotiation are not modelled: a signal
    the harness emits is returned as a `Signal` value instead. */
module WebrtcHarness {
  import opened Wrappers
  import opened Sdp
  import opened SdpValidators
  import opened CInts

  datatype Peer = Webrtc1 | Webrtc2

  function Other(e: Peer): (r: Peer)
    ensures r != e
  {
    if e == Webrtc1 then Webrtc2 else Webrtc1
  }

  /** `TestState`, in declaration order. */
  datatype TestState =
    | New | NegotiationNeeded | OfferCreated | OfferSet | AnswerCreated | AnswerSet
    | Eos | Error | Custom

  /** The enum's numeric value. */
  function StateValue(s: TestState): (v: nat)
    ensures v <= 8
  {
    match s
    case New => 0
    case NegotiationNeeded => 1
    case OfferCreated => 2
    case OfferSet => 3
    case AnswerCreated => 4
    case AnswerSet => 5
    case Eos => 6
    case Error => 7
    case Custom => 8
  }

  // ---------------------------------------------------------------------------
  // TEST_IS_OFFER_ELEMENT, TEST_GET_OFFEROR, TEST_GET_ANSWERER, TEST_SDP_IS_LOCAL

  predicate IsOfferElement(offerror: uint32, e: Peer)
  {
    (offerror == 1 && e == Webrtc1) || (offerror == 2 && e == Webrtc2)
  }

  function Offeror(offerror: uint32): Peer
  {
    if IsOfferElement(offerror, Webrtc1) then Webrtc1 else Webrtc2
  }

  function Answerer(offerror: uint32): Peer
  {
    if IsOfferElement(offerror, Webrtc1) then Webrtc2 else Webrtc1
  }

  /** The macro's `(is-offer-element XOR type == OFFER) == 0`. */
  predicate SdpIsLocal(offerror: uint32, e: Peer, t: SdpType)
  {
    (if IsOfferElement(offerror, e) then 1 else 0) == (if t == Offer then 1 else 0)
  }

  /** The offeror and the answerer are the two different elements. `offerror`
      1 makes webrtc1 the offeror and 2 makes webrtc2 the offeror; any other
      value also makes webrtc2 the offeror, yet then neither element counts as
      the offer element. */
  lemma OfferorAndAnswerer(offerror: uint32)
    ensures Offeror(offerror) != Answerer(offerror)
    ensures Answerer(offerror) == Other(Offeror(offerror))
    ensures offerror == 1 ==> Offeror(offerror) == Webrtc1
    ensures offerror != 1 ==> Offeror(offerror) == Webrtc2
    ensures IsOfferElement(offerror, Offeror(offerror)) <==> offerror == 1 || offerror == 2
    ensures !IsOfferElement(offerror, Answerer(offerror))
  {
  }

  /** With a valid `offerror`, an offer is local to the offeror and remote to
      the answerer, and an answer the other way round. */
  lemma SdpLocality(offerror: uint32, e: Peer, t: SdpType)
    requires offerror == 1 || offerror == 2
    ensures SdpIsLocal(offerror, e, t) <==> (e == Offeror(offerror) <==> t == Offer)
  {
  }

  // ---------------------------------------------------------------------------
  // test_webrtc_wait_for_state_mask and test_webrtc_wait_for_answer_error_eos

  /** `1 << state`. */
  function StateBit(s: TestState): (b: bv32)
    ensures b == 1 << StateValue(s)
  {
    match s
    case New => 0x1
    case NegotiationNeeded => 0x2
    case OfferCreated => 0x4
    case OfferSet => 0x8
    case AnswerCreated => 0x10
    case AnswerSet => 0x20
    case Eos => 0x40
    case Error => 0x80
    case Custom => 0x100
  }

  /** The wait loop returns once bit `1 << state` of the mask is set. */
  predicate WaitSatisfied(s: TestState, mask: bv32)
  {
    StateBit(s) & mask != 0
  }

  /** The mask with the bits of the listed states set. */
  function MaskOf(states: seq<TestState>): bv32
  {
    if |states| == 0 then 0 else MaskOf(states[..|states| - 1]) | StateBit(states[|states| - 1])
  }

  lemma StateBitsDisjoint(s: TestState, t: TestState)
    ensures (StateBit(s) & StateBit(t) != 0) <==> s == t
  {
  }

  lemma AndOrNonZero(a: bv32, b: bv32, c: bv32)
    ensures (a & (b | c) != 0) <==> (a & b != 0) || (a & c != 0)
  {
  }

  /** A wait on the mask of a list of states ends exactly in those states. */
  lemma {:induction false} WaitSatisfiedMaskOf(s: TestState, states: seq<TestState>)
    ensures WaitSatisfied(s, MaskOf(states)) <==> s in states
  {
    if |states| > 0 {
      var init, last := states[..|states| - 1], states[|states| - 1];
      WaitSatisfiedMaskOf(s, init);
      StateBitsDisjoint(s, last);
      AndOrNonZero(StateBit(s), MaskOf(init), StateBit(last));
      assert states == init + [last];
    }
  }

  const AnswerErrorEosMask: bv32 := MaskOf([AnswerSet, Eos, Error])

  /** The answer/error/EOS mask is 0xE0, the bits of ANSWER_SET, EOS and ERROR. */
  lemma AnswerErrorEosMaskBits(s: TestState)
    ensures AnswerErrorEosMask == 0xE0
    ensures WaitSatisfied(s, AnswerErrorEosMask) <==> s == AnswerSet || s == Eos || s == Error
  {
    var l := [AnswerSet, Eos, Error];
    assert l[..2] == [AnswerSet, Eos] && l[..2][..1] == [AnswerSet] && l[..2][..1][..0] == [];
    assert MaskOf([AnswerSet]) == 0x20;
    assert MaskOf([AnswerSet, Eos]) == 0x60;
    assert MaskOf(l) == 0xE0;
    WaitSatisfiedMaskOf(s, [AnswerSet, Eos, Error]);
  }

  // ---------------------------------------------------------------------------
  // Hooks, replies, signals and the harness value

  /** `on_negotiation_needed`: `_negotiation_not_reached` (the default), NULL,
      or `on_negotiation_needed_hit`, which records the element in a flag word. */
  datatype NegotiationHook = NegotiationNotReached | NoNegotiationHook | NegotiationHit

  /** `on_ice_candidate`: `_ice_candidate_not_reached` (the default), NULL, or
      `_check_ice_port_restriction`. */
  datatype IceHook = IceNotReached | NoIceHook | IcePortRestriction

  /** `on_offer_created` / `on_answer_created`: `_offer_answer_not_reached`
      (the default), NULL, `_check_validate_sdp` with its chain, or
      `offer_remove_last_media`. */
  datatype CreatedHook = CreatedNotReached | NoCreatedHook | ValidateSdp(chain: seq<Validator>) | RemoveLastMediaHook

  /** `on_offer_set` / `on_answer_set`: NULL (the default) or `offer_set_produced_error`. */
  datatype SetHook = NoSetHook | SetProducedError

  /** `bus_message`: `_bus_no_errors` (the default) or NULL. */
  datatype BusHook = BusNoErrors | NoBusHook

  datatype BusMessage = StateChangedMessage | ErrorMessage | EosMessage | OtherMessage

  /** The reply of a create-offer / create-answer promise: the description,
      an error, or neither. */
  datatype Reply = ReplyDescription(desc: SessionDescription) | ReplyError | ReplyNeither

  /** A signal the harness emits on an element. */
  datatype Signal =
    | CreateOffer(target: Peer)
    | SetLocalDescription(target: Peer, desc: SessionDescription)
    | SetRemoteDescription(target: Peer, desc: SessionDescription)
    | CreateAnswer(target: Peer)
    | AddIceCandidate(target: Peer, mlineIndex: nat, candidate: string)

  /** What `_check_ice_port_restriction`'s regular expression extracts from a
      candidate line: group 2 (the component, always `1`), the port (group 6,
      read with `atoi`) and the candidate type (group 7). */
  datatype CandidateFields = CandidateFields(component: string, port: nat, typ: string)

  datatype Harness = Harness(
    state: TestState,
    offerror: uint32,
    offerDesc: Option<SessionDescription>,
    offerSetCount: uint32,
    answerDesc: Option<SessionDescription>,
    answerSetCount: uint32,
    onNegotiationNeeded: NegotiationHook,
    negotiationFlag: bv32,
    onIceCandidate: IceHook,
    onOfferCreated: CreatedHook,
    onOfferSet: SetHook,
    onAnswerCreated: CreatedHook,
    onAnswerSet: SetHook,
    busMessage: BusHook)

  /** The result of one callback: false when the test aborts (a failed
      assertion, a "not reached" hook, a NULL dereference), the harness after
      it (as it stood at the abort) and the signals emitted. */
  datatype Outcome = Outcome(ok: bool, after: Harness, signals: seq<Signal>)

  /** `test_webrtc_new`'s harness. */
  function InitialHarness(): Harness
  {
    Harness(New, 1, None, 0, None, 0, NegotiationNotReached, 0, IceNotReached,
            CreatedNotReached, NoSetHook, CreatedNotReached, NoSetHook, BusNoErrors)
  }

  // ---------------------------------------------------------------------------
  // The step functions

  /** `_check_ice_port_restriction` for a candidate of element `e`: the line
      must match the pattern; a host candidate on a port other than 9 must lie
      in the element's range, from peer * 10000 + 1000 to 999 above that,
      where webrtc1 is peer 1 and webrtc2 peer 2. */
  predicate IcePortOk(e: Peer, parsed: Option<CandidateFields>)
  {
    && parsed.Some?
    && var peerNumber := if e == Webrtc1 then 1 else 2;
       var expectedMin := peerNumber * 10000 + 1000;
       var expectedMax := expectedMin + 999;
       (parsed.value.typ == "host" && parsed.value.port != 9 ==>
          expectedMin <= parsed.value.port <= expectedMax)
  }

  /** A host port is accepted for webrtc1 iff it is 9 or in 11000..11999,
      for webrtc2 iff it is 9 or in 21000..21999; only port 9 is accepted
      for both. */
  lemma IcePortRanges(e: Peer, f: CandidateFields)
    requires f.typ == "host"
    ensures IcePortOk(e, Some(f)) <==>
            f.port == 9 || (if e == Webrtc1 then 11000 <= f.port <= 11999 else 21000 <= f.port <= 21999)
    ensures IcePortOk(Webrtc1, Some(f)) && IcePortOk(Webrtc2, Some(f)) ==> f.port == 9
  {
  }

  /** The description `_check_validate_sdp` hands to the chain for `element`. */
  function DescFor(h: Harness, element: Peer): Option<SessionDescription>
  {
    if IsOfferElement(h.offerror, element) then h.offerDesc else h.answerDesc
  }

  /** An `on_offer_created` / `on_answer_created` hook run for `element`. */
  function CreatedHookStep(h: Harness, hook: CreatedHook, element: Peer): Outcome
  {
    match hook
    case CreatedNotReached => Outcome(false, h, [])
    case NoCreatedHook => Outcome(true, h, [])
    case ValidateSdp(chain) => Outcome(ChainHolds(chain, DescFor(h, element)), h, [])
    case RemoveLastMediaHook =>
      if h.offerDesc.None? || |h.offerDesc.value.sdp.medias| == 0 then Outcome(false, h, [])
      else Outcome(true, h.(offerDesc := Some(SessionDescription(Offer, WithoutLastMedia(h.offerDesc.value.sdp)))), [])
  }

  /** A creation error moves the state to ERROR unless it is already ERROR or later. */
  function ErrorState(s: TestState): TestState
  {
    if StateValue(s) < StateValue(Error) then Error else s
  }

  /** `_on_offer_received`. */
  function OfferReceivedStep(h: Harness, reply: Reply): Outcome
  {
    if reply.ReplyNeither? || h.offerDesc.Some? then Outcome(false, h, [])
    else
      var offeror, answerer := Offeror(h.offerror), Answerer(h.offerror);
      var h1 := h.(offerDesc := if reply.ReplyDescription? then Some(reply.desc) else None);
      var hook := CreatedHookStep(h1, h1.onOfferCreated, offeror);
      var h2 := hook.after;
      if !hook.ok then hook
      else if reply.ReplyError? then Outcome(true, h2.(state := ErrorState(h2.state)), [])
      else
        var signals := if h2.offerDesc.Some? then
          [SetLocalDescription(offeror, h2.offerDesc.value), SetRemoteDescription(answerer, h2.offerDesc.value),
           CreateAnswer(answerer)]
          else [];
        Outcome(true, h2.(state := OfferCreated), signals)
  }

  /** `_on_answer_received`. */
  function AnswerReceivedStep(h: Harness, reply: Reply): Outcome
  {
    if reply.ReplyNeither? || h.answerDesc.Some? then Outcome(false, h, [])
    else
      var offeror, answerer := Offeror(h.offerror), Answerer(h.offerror);
      var h1 := h.(answerDesc := if reply.ReplyDescription? then Some(reply.desc) else None);
      var hook := CreatedHookStep(h1, h1.onAnswerCreated, answerer);
      var h2 := hook.after;
      if !hook.ok then hook
      else if reply.ReplyError? then Outcome(true, h2.(state := ErrorState(h2.state)), [])
      else
        var signals := if h2.answerDesc.Some? then
          [SetLocalDescription(answerer, h2.answerDesc.value), SetRemoteDescription(offeror, h2.answerDesc.value)]
          else [];
        Outcome(true, h2.(state := AnswerCreated), signals)
  }

  /** An `on_offer_set` / `on_answer_set` hook; `replyIsError` says whether
      the set promise's reply carries an error. */
  function SetHookStep(h: Harness, hook: SetHook, replyIsError: bool): Outcome
  {
    match hook
    case NoSetHook => Outcome(true, h, [])
    case SetProducedError => if replyIsError then Outcome(true, h.(state := Custom), []) else Outcome(false, h, [])
  }

  /** `_on_offer_set`: both the local and the remote set report here. */
  function OfferSetStep(h: Harness, replyIsError: bool): Outcome
  {
    var h1 := h.(offerSetCount := Inc(h.offerSetCount));
    if h1.offerSetCount < 2 then Outcome(true, h1, [])
    else
      var hook := SetHookStep(h1, h1.onOfferSet, replyIsError);
      if !hook.ok then hook
      else Outcome(true, if hook.after.state == OfferCreated then hook.after.(state := OfferSet) else hook.after, [])
  }

  /** `_on_answer_set`. */
  function AnswerSetStep(h: Harness, replyIsError: bool): Outcome
  {
    var h1 := h.(answerSetCount := Inc(h.answerSetCount));
    if h1.answerSetCount < 2 then Outcome(true, h1, [])
    else
      var hook := SetHookStep(h1, h1.onAnswerSet, replyIsError);
      if !hook.ok then hook
      else Outcome(true, if hook.after.state == AnswerCreated then hook.after.(state := AnswerSet) else hook.after, [])
  }

  /** `on_negotiation_needed_hit`'s `flag |= 1 << (element == webrtc1 ? 1 : 2)`. */
  function MarkNegotiation(flag: bv32, e: Peer): bv32
  {
    flag | (if e == Webrtc1 then 2 else 4)
  }

  /** `_on_negotiation_needed` on element `e`. */
  function NegotiationNeededStep(h: Harness, e: Peer): Outcome
  {
    if h.onNegotiationNeeded == NegotiationNotReached then Outcome(false, h, [])
    else
      var h1 := if h.onNegotiationNeeded == NegotiationHit
                then h.(negotiationFlag := MarkNegotiation(h.negotiationFlag, e))
                else h;
      Outcome(true, if h1.state == New then h1.(state := NegotiationNeeded) else h1, [])
  }

  /** `_on_ice_candidate` on element `e`: the hook, then the candidate goes to the other element. */
  function IceCandidateStep(h: Harness, e: Peer, mlineIndex: nat, candidate: string,
                            parsed: Option<CandidateFields>): Outcome
  {
    match h.onIceCandidate
    case IceNotReached => Outcome(false, h, [])
    case IcePortRestriction =>
      if IcePortOk(e, parsed) then Outcome(true, h, [AddIceCandidate(Other(e), mlineIndex, candidate)])
      else Outcome(false, h, [])
    case NoIceHook => Outcome(true, h, [AddIceCandidate(Other(e), mlineIndex, candidate)])
  }

  /** `_bus_watch`: an error message sets ERROR and an EOS sets EOS; then the
      `_bus_no_errors` hook aborts the test on an error. */
  function BusMessageStep(h: Harness, msg: BusMessage): Outcome
  {
    var h1 := match msg
      case ErrorMessage => h.(state := Error)
      case EosMessage => h.(state := Eos)
      case _ => h;
    Outcome(!(h1.busMessage == BusNoErrors && msg == ErrorMessage), h1, [])
  }

  /** `test_webrtc_reset_negotiation`. */
  function ResetStep(h: Harness): Harness
  {
    h.(offerDesc := None, offerSetCount := 0, answerDesc := None, answerSetCount := 0,
       state := NegotiationNeeded)
  }

  // ---------------------------------------------------------------------------
  // What the callbacks promise

  /** A set callback changes only the counter until it reaches 2; from 2 on
      it may change the state too, and nothing else. The state becomes
      OFFER_SET only when the incremented counter is at least 2 and the state
      was OFFER_CREATED; without a hook that is also sufficient, and any other
      state is kept. The error hook succeeds exactly on an error reply and
      then leaves CUSTOM; when it aborts, the state is as it was. */
  lemma OfferSetTransition(h: Harness, replyIsError: bool)
    ensures var o := OfferSetStep(h, replyIsError);
      && o.after.offerSetCount == Inc(h.offerSetCount)
      && o.signals == []
      && o.after == h.(offerSetCount := o.after.offerSetCount, state := o.after.state)
      && (o.after.offerSetCount < 2 ==> o.ok && o.after == h.(offerSetCount := o.after.offerSetCount))
      && (o.after.state == OfferSet && h.state != OfferSet ==>
            o.after.offerSetCount >= 2 && h.state == OfferCreated)
      && (o.after.offerSetCount >= 2 && h.onOfferSet == NoSetHook ==>
            o.ok && o.after == h.(offerSetCount := o.after.offerSetCount,
                                  state := if h.state == OfferCreated then OfferSet else h.state))
      && (o.after.offerSetCount >= 2 && h.onOfferSet == SetProducedError ==>
            (o.ok <==> replyIsError) && (o.ok ==> o.after.state == Custom)
            && (!o.ok ==> o.after.state == h.state))
  {
  }

  /** The same for the answer side and ANSWER_SET. */
  lemma AnswerSetTransition(h: Harness, replyIsError: bool)
    ensures var o := AnswerSetStep(h, replyIsError);
      && o.after.answerSetCount == Inc(h.answerSetCount)
      && o.signals == []
      && o.after == h.(answerSetCount := o.after.answerSetCount, state := o.after.state)
      && (o.after.answerSetCount < 2 ==> o.ok && o.after == h.(answerSetCount := o.after.answerSetCount))
      && (o.after.state == AnswerSet && h.state != AnswerSet ==>
            o.after.answerSetCount >= 2 && h.state == AnswerCreated)
      && (o.after.answerSetCount >= 2 && h.onAnswerSet == NoSetHook ==>
            o.ok && o.after == h.(answerSetCount := o.after.answerSetCount,
                                  state := if h.state == AnswerCreated then AnswerSet else h.state))
      && (o.after.answerSetCount >= 2 && h.onAnswerSet == SetProducedError ==>
            (o.ok <==> replyIsError) && (o.ok ==> o.after.state == Custom)
            && (!o.ok ==> o.after.state == h.state))
  {
  }

  /** Negotiation-needed moves NEW to NEGOTIATION_NEEDED and leaves every other
      state alone; the hit hook sets bit 1 for webrtc1 and bit 2 for webrtc2. */
  lemma NegotiationNeededTransition(h: Harness, e: Peer)
    ensures var o := NegotiationNeededStep(h, e);
      && (o.ok <==> h.onNegotiationNeeded != NegotiationNotReached)
      && (o.ok ==> o.after.state == (if h.state == New then NegotiationNeeded else h.state))
      && (o.ok && h.onNegotiationNeeded == NegotiationHit ==>
            o.after.negotiationFlag == MarkNegotiation(h.negotiationFlag, e))
      && o.after.(state := h.state, negotiationFlag := h.negotiationFlag) == h
  {
  }

  /** A creation that fails with an error stores no description, emits
      nothing, and sets ERROR only from a state below ERROR: a CUSTOM (or
      ERROR) state is kept. This holds whatever creation hook is installed,
      as long as the hook lets the callback go on; only the answer-side
      `offer_remove_last_media` hook also touches the stored offer. When the
      callback aborts, the harness is untouched; a second reply always
      aborts, and with no hook installed the first one never does. */
  lemma CreationErrorTransition(h: Harness)
    ensures var o := OfferReceivedStep(h, ReplyError);
      && (o.ok ==> o.signals == [] && o.after.offerDesc.None? &&
                   o.after.state == (if StateValue(h.state) < 7 then Error else h.state) &&
                   o.after == h.(state := ErrorState(h.state)))
      && (!o.ok ==> o.after == h)
      && (h.offerDesc.Some? ==> !o.ok)
      && (h.onOfferCreated == NoCreatedHook ==> (o.ok <==> h.offerDesc.None?))
    ensures var o := AnswerReceivedStep(h, ReplyError);
      && (o.ok ==> o.signals == [] && o.after.answerDesc.None? &&
                   o.after.state == (if StateValue(h.state) < 7 then Error else h.state) &&
                   o.after == h.(state := o.after.state, offerDesc := o.after.offerDesc))
      && (o.ok && h.onAnswerCreated != RemoveLastMediaHook ==> o.after == h.(state := ErrorState(h.state)))
      && (!o.ok ==> o.after == h)
      && (h.answerDesc.Some? ==> !o.ok)
      && (h.onAnswerCreated == NoCreatedHook ==> (o.ok <==> h.answerDesc.None?))
    ensures h.state == Custom ==> OfferReceivedStep(h, ReplyError).after.state == Custom
  {
  }

  /** A created offer is stored, set locally on the offeror and remotely on
      the answerer, and the answerer is asked for an answer; the state is
      OFFER_CREATED whatever it was. A second offer before a reset aborts. */
  lemma OfferCreatedSignals(h: Harness, d: SessionDescription)
    requires h.onOfferCreated == NoCreatedHook
    ensures var o := OfferReceivedStep(h, ReplyDescription(d));
      && (o.ok <==> h.offerDesc.None?)
      && (o.ok ==> o.after == h.(offerDesc := Some(d), state := OfferCreated)
                   && o.signals == [SetLocalDescription(Offeror(h.offerror), d),
                                    SetRemoteDescription(Answerer(h.offerror), d),
                                    CreateAnswer(Answerer(h.offerror))])
  {
  }

  /** A created answer is stored, set locally on the answerer and then
      remotely on the offeror; the state is ANSWER_CREATED whatever it was.
      A second answer before a reset aborts. */
  lemma AnswerCreatedSignals(h: Harness, d: SessionDescription)
    requires h.onAnswerCreated == NoCreatedHook
    ensures var o := AnswerReceivedStep(h, ReplyDescription(d));
      && (o.ok <==> h.answerDesc.None?)
      && (o.ok ==> o.after == h.(answerDesc := Some(d), state := AnswerCreated)
                   && o.signals == [SetLocalDescription(Answerer(h.offerror), d),
                                    SetRemoteDescription(Offeror(h.offerror), d)])
      && (!o.ok ==> o.after == h)
  {
  }

  /** `offer_remove_last_media` as the offer hook replaces the stored offer by
      one media section shorter; the offer signals carry the shortened offer. */
  lemma RemoveLastMediaOffer(h: Harness, d: SessionDescription)
    requires h.onOfferCreated == RemoveLastMediaHook && h.offerDesc.None?
    ensures var o := OfferReceivedStep(h, ReplyDescription(d));
      && (o.ok <==> |d.sdp.medias| > 0)
      && (o.ok ==> && o.after.offerDesc == Some(SessionDescription(Offer, WithoutLastMedia(d.sdp)))
                   && |o.after.offerDesc.value.sdp.medias| == |d.sdp.medias| - 1
                   && o.signals[0] == SetLocalDescription(Offeror(h.offerror), o.after.offerDesc.value))
  {
  }

  /** An ICE candidate is handed, unchanged, to the other element. */
  lemma IceCandidateForwarded(h: Harness, e: Peer, mlineIndex: nat, candidate: string,
                              parsed: Option<CandidateFields>)
    ensures var o := IceCandidateStep(h, e, mlineIndex, candidate, parsed);
      && o.after == h
      && (o.ok <==> h.onIceCandidate == NoIceHook || (h.onIceCandidate == IcePortRestriction && IcePortOk(e, parsed)))
      && (o.ok ==> o.signals == [AddIceCandidate(Other(e), mlineIndex, candidate)] && Other(e) != e)
  {
  }

  /** Resetting drops both descriptions, zeroes both counters and sets
      NEGOTIATION_NEEDED, whatever hooks are installed; nothing else changes.
      With no offer-created hook, a new offer can then be stored. */
  lemma ResetAllowsRenegotiation(h: Harness, d: SessionDescription)
    ensures var r := ResetStep(h);
      && r.state == NegotiationNeeded && r.offerDesc.None? && r.answerDesc.None?
      && r.offerSetCount == 0 && r.answerSetCount == 0
      && r.(state := h.state, offerDesc := h.offerDesc, answerDesc := h.answerDesc,
            offerSetCount := h.offerSetCount, answerSetCount := h.answerSetCount) == h
      && (h.onOfferCreated == NoCreatedHook ==> OfferReceivedStep(r, ReplyDescription(d)).ok)
  {
  }

  /** A whole negotiation without hooks: offer created, set twice, answer
      created, set twice, ends in ANSWER_SET, which ends the answer/error/EOS wait. */
  lemma {:induction false} FullNegotiation(h: Harness, offer: SessionDescription, answer: SessionDescription)
    requires h.state == NegotiationNeeded && h.offerDesc.None? && h.answerDesc.None?
    requires h.offerSetCount == 0 && h.answerSetCount == 0
    requires h.onOfferCreated == NoCreatedHook && h.onAnswerCreated == NoCreatedHook
    requires h.onOfferSet == NoSetHook && h.onAnswerSet == NoSetHook
    ensures var o1 := OfferReceivedStep(h, ReplyDescription(offer));
            var o2 := OfferSetStep(o1.after, false);
            var o3 := OfferSetStep(o2.after, false);
            var o4 := AnswerReceivedStep(o3.after, ReplyDescription(answer));
            var o5 := AnswerSetStep(o4.after, false);
            var o6 := AnswerSetStep(o5.after, false);
      && o1.ok && o2.ok && o3.ok && o4.ok && o5.ok && o6.ok
      && o2.after.state == OfferCreated && o3.after.state == OfferSet
      && o5.after.state == AnswerCreated && o6.after.state == AnswerSet
      && WaitSatisfied(o6.after.state, AnswerErrorEosMask)
  {
    var o1 := OfferReceivedStep(h, ReplyDescription(offer));
    var o2 := OfferSetStep(o1.after, false);
    var o3 := OfferSetStep(o2.after, false);
    var o4 := AnswerReceivedStep(o3.after, ReplyDescription(answer));
    var o5 := AnswerSetStep(o4.after, false);
    var o6 := AnswerSetStep(o5.after, false);
    assert o1.after.offerSetCount == 0 && o1.after.state == OfferCreated;
    assert o2.after.offerSetCount == 1;
    assert o3.after.offerSetCount == 2 && o3.after.answerDesc.None?;
    assert o4.after.answerSetCount == 0 && o4.after.state == AnswerCreated;
    assert o5.after.answerSetCount == 1;
    AnswerErrorEosMaskBits(o6.after.state);
  }

  /** A bus error sets ERROR, and the default hook then aborts; EOS sets EOS;
      nothing but the state changes. */
  lemma BusMessageTransition(h: Harness, msg: BusMessage)
    ensures var o := BusMessageStep(h, msg);
      && o.after.state == (match msg case ErrorMessage => Error case EosMessage => Eos case _ => h.state)
      && o.after == h.(state := o.after.state)
      && o.signals == []
      && (o.ok <==> !(msg == ErrorMessage && h.busMessage == BusNoErrors))
      && WaitSatisfied(o.after.state, AnswerErrorEosMask) ==
         (msg == ErrorMessage || msg == EosMessage || WaitSatisfied(h.state, AnswerErrorEosMask))
  {
    AnswerErrorEosMaskBits(h.state);
    AnswerErrorEosMaskBits(BusMessageStep(h, msg).after.state);
  }

  // ---------------------------------------------------------------------------
  // The harness object

  class TestWebrtc {
    var state: TestState
    var offerror: uint32
    var offerDesc: Option<SessionDescription>
    var offerSetCount: uint32
    var answerDesc: Option<SessionDescription>
    var answerSetCount: uint32
    var onNegotiationNeeded: NegotiationHook
    var negotiationFlag: bv32
    var onIceCandidate: IceHook
    var onOfferCreated: CreatedHook
    var onOfferSet: SetHook
    var onAnswerCreated: CreatedHook
    var onAnswerSet: SetHook
    var busMessage: BusHook

    function Snapshot(): Harness
      reads this
    {
      Harness(state, offerror, offerDesc, offerSetCount, answerDesc, answerSetCount,
              onNegotiationNeeded, negotiationFlag, onIceCandidate, onOfferCreated, onOfferSet,
              onAnswerCreated, onAnswerSet, busMessage)
    }

    /** `test_webrtc_new`: the default hooks and `offerror` 1. */
    constructor ()
      ensures Snapshot() == InitialHarness()
    {
      state := New;
      offerror := 1;
      offerDesc, offerSetCount := None, 0;
      answerDesc, answerSetCount := None, 0;
      onNegotiationNeeded, negotiationFlag := NegotiationNotReached, 0;
      onIceCandidate := IceNotReached;
      onOfferCreated, onOfferSet := CreatedNotReached, NoSetHook;
      onAnswerCreated, onAnswerSet := CreatedNotReached, NoSetHook;
      busMessage := BusNoErrors;
    }

    /** `_check_validate_sdp` for `element`. */
    method CheckValidateSdp(element: Peer, chain: seq<Validator>) returns (ok: bool)
      ensures ok <==> ChainHolds(chain, DescFor(Snapshot(), element))
    {
      var desc := if IsOfferElement(offerror, element) then offerDesc else answerDesc;
      ok := RunChain(chain, desc);
    }

    /** Runs an `on_offer_created` / `on_answer_created` hook. */
    method RunCreatedHook(hook: CreatedHook, element: Peer) returns (ok: bool)
      modifies this
      ensures Outcome(ok, Snapshot(), []) == CreatedHookStep(old(Snapshot()), hook, element)
    {
      match hook
      case CreatedNotReached => ok := false;
      case NoCreatedHook => ok := true;
      case ValidateSdp(chain) => ok := CheckValidateSdp(element, chain);
      case RemoveLastMediaHook =>
        if offerDesc.None? {
          return false;
        }
        var sdp;
        ok, sdp := RemoveLastMedia(offerDesc.value.sdp);
        if ok {
          offerDesc := Some(SessionDescription(Offer, sdp));
        }
    }

    /** `_on_offer_received`. */
    method OnOfferReceived(reply: Reply) returns (ok: bool, signals: seq<Signal>)
      modifies this
      ensures Outcome(ok, Snapshot(), signals) == OfferReceivedStep(old(Snapshot()), reply)
    {
      var offeror, answerer := Offeror(offerror), Answerer(offerror);
      signals := [];
      if reply.ReplyNeither? || offerDesc.Some? {
        return false, signals;
      }
      offerDesc := if reply.ReplyDescription? then Some(reply.desc) else None;
      ok := RunCreatedHook(onOfferCreated, offeror);
      if !ok {
        return;
      }
      if reply.ReplyError? {
        if StateValue(state) < StateValue(Error) {
          state := Error;
        }
        return;
      }
      if offerDesc.Some? {
        signals := [SetLocalDescription(offeror, offerDesc.value), SetRemoteDescription(answerer, offerDesc.value),
                    CreateAnswer(answerer)];
      }
      state := OfferCreated;
    }

    /** `_on_answer_received`. */
    method OnAnswerReceived(reply: Reply) returns (ok: bool, signals: seq<Signal>)
      modifies this
      ensures Outcome(ok, Snapshot(), signals) == AnswerReceivedStep(old(Snapshot()), reply)
    {
      var offeror, answerer := Offeror(offerror), Answerer(offerror);
      signals := [];
      if reply.ReplyNeither? || answerDesc.Some? {
        return false, signals;
      }
      answerDesc := if reply.ReplyDescription? then Some(reply.desc) else None;
      ok := RunCreatedHook(onAnswerCreated, answerer);
      if !ok {
        return;
      }
      if reply.ReplyError? {
        if StateValue(state) < StateValue(Error) {
          state := Error;
        }
        return;
      }
      if answerDesc.Some? {
        signals := [SetLocalDescription(answerer, answerDesc.value), SetRemoteDescription(offeror, answerDesc.value)];
      }
      state := AnswerCreated;
    }

    /** Runs an `on_offer_set` / `on_answer_set` hook. */
    method RunSetHook(hook: SetHook, replyIsError: bool) returns (ok: bool)
      modifies this
      ensures Outcome(ok, Snapshot(), []) == SetHookStep(old(Snapshot()), hook, replyIsError)
    {
      ok := true;
      if hook == SetProducedError {
        if !replyIsError {
          return false;
        }
        state := Custom;
      }
    }

    /** `_on_offer_set`. */
    method OnOfferSet(replyIsError: bool) returns (ok: bool)
      modifies this
      ensures Outcome(ok, Snapshot(), []) == OfferSetStep(old(Snapshot()), replyIsError)
    {
      offerSetCount := Inc(offerSetCount);
      ok := true;
      if offerSetCount >= 2 {
        ok := RunSetHook(onOfferSet, replyIsError);
        if !ok {
          return;
        }
        if state == OfferCreated {
          state := OfferSet;
        }
      }
    }

    /** `_on_answer_set`. */
    method OnAnswerSet(replyIsError: bool) returns (ok: bool)
      modifies this
      ensures Outcome(ok, Snapshot(), []) == AnswerSetStep(old(Snapshot()), replyIsError)
    {
      answerSetCount := Inc(answerSetCount);
      ok := true;
      if answerSetCount >= 2 {
        ok := RunSetHook(onAnswerSet, replyIsError);
        if !ok {
          return;
        }
        if state == AnswerCreated {
          state := AnswerSet;
        }
      }
    }

    /** `_on_negotiation_needed`. */
    method OnNegotiationNeeded(e: Peer) returns (ok: bool)
      modifies this
      ensures Outcome(ok, Snapshot(), []) == NegotiationNeededStep(old(Snapshot()), e)
    {
      if onNegotiationNeeded == NegotiationNotReached {
        return false;
      }
      if onNegotiationNeeded == NegotiationHit {
        negotiationFlag := MarkNegotiation(negotiationFlag, e);
      }
      if state == New {
        state := NegotiationNeeded;
      }
      ok := true;
    }

    /** `_on_ice_candidate`; `parsed` is what the port check's regular
        expression extracts from `candidate` (None when it does not match). */
    method OnIceCandidate(e: Peer, mlineIndex: nat, candidate: string, parsed: Option<CandidateFields>)
      returns (ok: bool, signals: seq<Signal>)
      ensures Outcome(ok, Snapshot(), signals) == IceCandidateStep(Snapshot(), e, mlineIndex, candidate, parsed)
    {
      var other := if e == Webrtc1 then Webrtc2 else Webrtc1;
      signals := [];
      if onIceCandidate == IceNotReached {
        return false, signals;
      }
      if onIceCandidate == IcePortRestriction && !IcePortOk(e, parsed) {
        return false, signals;
      }
      signals := [AddIceCandidate(other, mlineIndex, candidate)];
      ok := true;
    }

    /** `_bus_watch`. */
    method OnBusMessage(msg: BusMessage) returns (ok: bool)
      modifies this
      ensures Outcome(ok, Snapshot(), []) == BusMessageStep(old(Snapshot()), msg)
    {
      if msg == ErrorMessage {
        state := Error;
      } else if msg == EosMessage {
        state := Eos;
      }
      ok := !(busMessage == BusNoErrors && msg == ErrorMessage);
    }

    /** `test_webrtc_reset_negotiation`. */
    method ResetNegotiation()
      modifies this
      ensures Snapshot() == ResetStep(old(Snapshot()))
    {
      offerDesc := None;
      offerSetCount := 0;
      answerDesc := None;
      answerSetCount := 0;
      state := NegotiationNeeded;
    }

    /** `test_webrtc_create_offer`: asks the offeror for an offer. */
    method CreateOffer() returns (signals: seq<Signal>)
      ensures signals == [Signal.CreateOffer(Offeror(Snapshot().offerror))]
    {
      signals := [Signal.CreateOffer(Offeror(offerror))];
    }
  }
}
