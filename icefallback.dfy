/** libnice's fallback test (`tests/test-fallback.c`): the signal callbacks
    count events in file-level globals and decide when the main loop
    quits. The globals are the fields of `FallbackGlobals`; each callback is
    a method specified by a pure step function on their value, and returns
    whether it quit the main loop. The agents, sockets, gathering, the timer
    and `main` are not modelled: the callbacks' arguments are inputs. */
module IceFallback {
  import opened CInts
  import opened Strings

  /** `NiceComponentState` values the test looks at (libnice's agent.h
      numbers them DISCONNECTED = 0 up to LAST = 6). */
  const StateReady: uint32 := 4
  const StateFailed: uint32 := 5
  const StateLast: uint32 := 6

  /** The payload the test sends. */
  const Payload: string := "1234567812345678"

  /** The globals kept per agent: `global_lagent_*` and `global_ragent_*`. */
  datatype Agent = Agent(state: uint32, gatheringDone: bool, ibrReceived: bool, cands: int32)

  datatype Globals = Globals(
    lagent: Agent,
    ragent: Agent,
    componentsReady: uint32,
    componentsReadyExit: uint32,
    componentsFailed: uint32,
    componentsFailedExit: uint32,
    ragentRead: int32,
    ragentReadExit: int32,
    acceptNonData: bool)

  /** The value of a callback: false when it ends the test with `g_error`,
      the globals after it and whether it quit the main loop. */
  datatype Outcome = Outcome(ok: bool, after: Globals, quit: bool)

  /** The static initialisers. */
  function InitialGlobals(): Globals
  {
    Globals(Agent(StateLast, false, false, 0), Agent(StateLast, false, false, 0), 0, 0, 0, 0, 0, 0, true)
  }

  // ---------------------------------------------------------------------------
  // The step functions; `agent` is the callback's user data (1 for L, 2 for R)

  /** A packet is test data iff it is 16 bytes of the payload. */
  predicate IsPayload(len: uint32, buf: string)
  {
    len == 16 && HasPrefix(buf, Payload)
  }

  /** `cb_nice_recv`. */
  function RecvStep(g: Globals, agent: int, len: uint32, buf: string): Outcome
  {
    if !IsPayload(len, buf) then Outcome(g.acceptNonData, g, false)
    else if agent == 2 then
      var read := WrapInt32(g.ragentRead as int + len as int);
      Outcome(true, g.(ragentRead := read), read == g.ragentReadExit)
    else Outcome(true, g, false)
  }

  /** `cb_candidate_gathering_done`. */
  function GatheringDoneStep(g: Globals, agent: int): Outcome
  {
    var g1 := if agent == 1 then g.(lagent := g.lagent.(gatheringDone := true))
              else if agent == 2 then g.(ragent := g.ragent.(gatheringDone := true))
              else g;
    Outcome(true, g1, g1.lagent.gatheringDone && g1.ragent.gatheringDone)
  }

  /** `cb_component_state_changed`. */
  function StateChangedStep(g: Globals, agent: int, state: uint32): Outcome
  {
    var ready := if state == StateReady then Inc(g.componentsReady) else g.componentsReady;
    var failed := if state == StateFailed then Inc(g.componentsFailed) else g.componentsFailed;
    var g1 := g.(lagent := if agent == 1 then g.lagent.(state := state) else g.lagent,
                 ragent := if agent == 2 then g.ragent.(state := state) else g.ragent,
                 componentsReady := ready, componentsFailed := failed);
    Outcome(true, g1, ready == g.componentsReadyExit || failed == g.componentsFailedExit)
  }

  /** `cb_new_selected_pair`. */
  function SelectedPairStep(g: Globals, agent: int): Globals
  {
    if agent == 1 then g.(lagent := g.lagent.(cands := WrapInt32(g.lagent.cands as int + 1)))
    else if agent == 2 then g.(ragent := g.ragent.(cands := WrapInt32(g.ragent.cands as int + 1)))
    else g
  }

  /** `cb_initial_binding_request_received`. */
  function BindingRequestStep(g: Globals, agent: int): Globals
  {
    if agent == 1 then g.(lagent := g.lagent.(ibrReceived := true))
    else if agent == 2 then g.(ragent := g.ragent.(ibrReceived := true))
    else g
  }

  /** The "initialize variables modified by the callbacks" step of
      `run_fallback_test`; the safe run also turns non-data acceptance off. */
  function ResetStep(g: Globals, safe: bool): Globals
  {
    var r := g.(componentsReady := 0, componentsReadyExit := 4, componentsFailed := 0, componentsFailedExit := 4,
                lagent := ResetAgent(g.lagent), ragent := ResetAgent(g.ragent), ragentReadExit := -1);
    if safe then r.(acceptNonData := false) else r
  }

  /** An agent's flags and pair counter cleared; its state kept. */
  function ResetAgent(a: Agent): Agent
  {
    a.(gatheringDone := false, ibrReceived := false, cands := 0)
  }

  /** Before sending the payload: the read counter is zeroed and the exit
      value set to 16. */
  function ExpectPayloadStep(g: Globals): Globals
  {
    g.(ragentRead := 0, ragentReadExit := 16)
  }

  // ---------------------------------------------------------------------------
  // What the callbacks promise

  /** Only a 16-byte payload counts. Anything else is ignored while non-data
      is accepted and ends the test otherwise. Only agent 2's data adds to
      the read counter, and the loop quits exactly when it reaches the exit
      value. */
  lemma RecvCounting(g: Globals, agent: int, len: uint32, buf: string)
    ensures var o := RecvStep(g, agent, len, buf);
      && (!IsPayload(len, buf) ==> o.after == g && !o.quit && (o.ok <==> g.acceptNonData))
      && (IsPayload(len, buf) && agent != 2 ==> o.ok && o.after == g && !o.quit)
      && (IsPayload(len, buf) && agent == 2 ==>
            && o.ok
            && o.after == g.(ragentRead := o.after.ragentRead)
            && (o.after.ragentRead as int - g.ragentRead as int - 16) % 0x1_0000_0000 == 0
            && (g.ragentRead < 0x7FFF_FFF0 ==> o.after.ragentRead == g.ragentRead + 16)
            && (o.quit <==> o.after.ragentRead == g.ragentReadExit))
  {
  }

  /** Once the payload is expected, the payload arriving at agent 2 quits the
      loop with 16 bytes read — the value the test then asserts. */
  lemma PayloadReceived(g: Globals)
    ensures var o := RecvStep(ExpectPayloadStep(g), 2, 16, Payload);
      o.ok && o.quit && o.after.ragentRead == 16
  {
  }

  /** In the safe run a packet that is not the payload ends the test. */
  lemma SafeRunRejectsNonData(g: Globals, agent: int, len: uint32, buf: string)
    requires !IsPayload(len, buf)
    ensures !RecvStep(ResetStep(g, true), agent, len, buf).ok
  {
  }

  /** Gathering-done sets only the calling agent's flag, and the loop quits
      iff both flags are then set. */
  lemma GatheringDone(g: Globals, agent: int)
    ensures var o := GatheringDoneStep(g, agent);
      && o.ok
      && o.after.lagent == g.lagent.(gatheringDone := g.lagent.gatheringDone || agent == 1)
      && o.after.ragent == g.ragent.(gatheringDone := g.ragent.gatheringDone || agent == 2)
      && o.after.(lagent := g.lagent, ragent := g.ragent) == g
      && (o.quit <==> o.after.lagent.gatheringDone && o.after.ragent.gatheringDone)
  {
  }

  /** After a reset, gathering ends for both agents in either order, and the
      loop quits only at the second. */
  lemma GatheringQuitsAtSecond(g: Globals, safe: bool, first: int)
    requires first == 1 || first == 2
    ensures var o1 := GatheringDoneStep(ResetStep(g, safe), first);
            var o2 := GatheringDoneStep(o1.after, 3 - first);
      !o1.quit && o2.quit
  {
  }

  /** A state change records the agent's state and counts READY and
      FAILED; nothing else changes. */
  lemma StateChangedCounts(g: Globals, agent: int, state: uint32)
    ensures var o := StateChangedStep(g, agent, state);
      && o.ok
      && o.after.lagent == (if agent == 1 then g.lagent.(state := state) else g.lagent)
      && o.after.ragent == (if agent == 2 then g.ragent.(state := state) else g.ragent)
      && o.after.componentsReady == (if state == StateReady then Inc(g.componentsReady) else g.componentsReady)
      && o.after.componentsFailed == (if state == StateFailed then Inc(g.componentsFailed) else g.componentsFailed)
      && o.after.(lagent := g.lagent, ragent := g.ragent,
                  componentsReady := g.componentsReady, componentsFailed := g.componentsFailed) == g
  {
  }

  /** A state change quits the loop when the READY count reaches its exit
      value, or else when the FAILED count reaches its own. */
  lemma StateChangedQuits(g: Globals, agent: int, state: uint32)
    ensures var o := StateChangedStep(g, agent, state);
      o.quit <==> (if state == StateReady then Inc(g.componentsReady) else g.componentsReady) == g.componentsReadyExit
                  || (if state == StateFailed then Inc(g.componentsFailed) else g.componentsFailed) == g.componentsFailedExit
  {
  }

  /** After a reset, the four components (RTP and RTCP of both agents)
      reaching READY quit the loop at the fourth and not before, with both
      agents recorded READY. */
  lemma {:induction false} FourReadyQuit(g: Globals, safe: bool)
    ensures var o1 := StateChangedStep(ResetStep(g, safe), 1, StateReady);
            var o2 := StateChangedStep(o1.after, 1, StateReady);
            var o3 := StateChangedStep(o2.after, 2, StateReady);
            var o4 := StateChangedStep(o3.after, 2, StateReady);
      && !o1.quit && !o2.quit && !o3.quit && o4.quit
      && o4.after.lagent.state == StateReady && o4.after.ragent.state == StateReady
  {
    var o1 := StateChangedStep(ResetStep(g, safe), 1, StateReady);
    assert o1.after.componentsReady == 1 && o1.after.componentsFailed == 0;
    var o2 := StateChangedStep(o1.after, 1, StateReady);
    assert o2.after.componentsReady == 2;
    var o3 := StateChangedStep(o2.after, 2, StateReady);
    assert o3.after.componentsReady == 3;
  }

  /** `cb_new_selected_pair` increments only the calling agent's counter. */
  lemma SelectedPairCounts(g: Globals, agent: int)
    ensures var g' := SelectedPairStep(g, agent);
      && g'.lagent == (if agent == 1 then g.lagent.(cands := WrapInt32(g.lagent.cands as int + 1)) else g.lagent)
      && g'.ragent == (if agent == 2 then g.ragent.(cands := WrapInt32(g.ragent.cands as int + 1)) else g.ragent)
      && g'.(lagent := g.lagent, ragent := g.ragent) == g
      && (agent == 1 && g.lagent.cands < 0x7FFF_FFFF ==> g'.lagent.cands == g.lagent.cands + 1)
  {
  }

  /** A reset zeroes the counters and flags, sets both exit thresholds to 4
      and the read exit value to -1; the safe run turns off non-data
      acceptance, the plain run leaves it. States and the read counter are
      kept. */
  lemma ResetValues(g: Globals, safe: bool)
    ensures var r := ResetStep(g, safe);
      && r.componentsReady == 0 && r.componentsFailed == 0
      && r.componentsReadyExit == 4 && r.componentsFailedExit == 4
      && r.lagent == Agent(g.lagent.state, false, false, 0)
      && r.ragent == Agent(g.ragent.state, false, false, 0)
      && r.ragentReadExit == -1
      && r.acceptNonData == (!safe && g.acceptNonData)
      && r.ragentRead == g.ragentRead
  {
  }

  /** With the read exit at -1 after a reset, no number of payloads received
      from the all-zero counter quits the loop before the counter wraps. */
  lemma ResetReadNeverQuitsEarly(g: Globals, safe: bool, read: int32)
    requires 0 <= read < 0x7FFF_FFF0
    ensures !RecvStep(ResetStep(g, safe).(ragentRead := read), 2, 16, Payload).quit
  {
  }

  // ---------------------------------------------------------------------------
  // The globals

  class FallbackGlobals {
    var lagent: Agent
    var ragent: Agent
    var componentsReady: uint32
    var componentsReadyExit: uint32
    var componentsFailed: uint32
    var componentsFailedExit: uint32
    var ragentRead: int32
    var ragentReadExit: int32
    var acceptNonData: bool

    function Snapshot(): Globals
      reads this
    {
      Globals(lagent, ragent, componentsReady, componentsReadyExit, componentsFailed, componentsFailedExit,
              ragentRead, ragentReadExit, acceptNonData)
    }

    /** The globals as the program starts. */
    constructor ()
      ensures Snapshot() == InitialGlobals()
    {
      lagent := Agent(StateLast, false, false, 0);
      ragent := Agent(StateLast, false, false, 0);
      componentsReady, componentsReadyExit := 0, 0;
      componentsFailed, componentsFailedExit := 0, 0;
      ragentRead, ragentReadExit := 0, 0;
      acceptNonData := true;
    }

    /** `cb_nice_recv`. */
    method OnRecv(agent: int, len: uint32, buf: string) returns (ok: bool, quit: bool)
      modifies this
      ensures Outcome(ok, Snapshot(), quit) == RecvStep(old(Snapshot()), agent, len, buf)
    {
      ok, quit := true, false;
      if !(len == 16 && HasPrefix(buf, Payload)) {
        ok := acceptNonData;
        return;
      }
      if agent == 2 {
        ragentRead := WrapInt32(ragentRead as int + len as int);
        quit := ragentRead == ragentReadExit;
      }
    }

    /** `cb_candidate_gathering_done`. */
    method OnGatheringDone(agent: int) returns (quit: bool)
      modifies this
      ensures Outcome(true, Snapshot(), quit) == GatheringDoneStep(old(Snapshot()), agent)
    {
      if agent == 1 {
        lagent := lagent.(gatheringDone := true);
      } else if agent == 2 {
        ragent := ragent.(gatheringDone := true);
      }
      quit := lagent.gatheringDone && ragent.gatheringDone;
    }

    /** `cb_component_state_changed`. */
    method OnStateChanged(agent: int, state: uint32) returns (quit: bool)
      modifies this
      ensures Outcome(true, Snapshot(), quit) == StateChangedStep(old(Snapshot()), agent, state)
    {
      if agent == 1 {
        lagent := lagent.(state := state);
      } else if agent == 2 {
        ragent := ragent.(state := state);
      }
      if state == StateReady {
        componentsReady := Inc(componentsReady);
      }
      if state == StateFailed {
        componentsFailed := Inc(componentsFailed);
      }
      if componentsReady == componentsReadyExit {
        return true;
      }
      quit := componentsFailed == componentsFailedExit;
    }

    /** `cb_new_selected_pair`. */
    method OnNewSelectedPair(agent: int)
      modifies this
      ensures Snapshot() == SelectedPairStep(old(Snapshot()), agent)
    {
      if agent == 1 {
        lagent := lagent.(cands := WrapInt32(lagent.cands as int + 1));
      } else if agent == 2 {
        ragent := ragent.(cands := WrapInt32(ragent.cands as int + 1));
      }
    }

    /** `cb_initial_binding_request_received`. */
    method OnInitialBindingRequest(agent: int)
      modifies this
      ensures Snapshot() == BindingRequestStep(old(Snapshot()), agent)
    {
      if agent == 1 {
        lagent := lagent.(ibrReceived := true);
      } else if agent == 2 {
        ragent := ragent.(ibrReceived := true);
      }
    }

    /** The reset at the start of `run_fallback_test` (`safe` false) and of
        `run_safe_fallback_test` (`safe` true). */
    method Reset(safe: bool)
      modifies this
      ensures Snapshot() == ResetStep(old(Snapshot()), safe)
    {
      componentsReady, componentsReadyExit := 0, 4;
      componentsFailed, componentsFailedExit := 0, 4;
      lagent := lagent.(gatheringDone := false, ibrReceived := false, cands := 0);
      ragent := ragent.(gatheringDone := false, ibrReceived := false, cands := 0);
      ragentReadExit := -1;
      if safe {
        acceptNonData := false;
      }
    }

    /** Zeroing the read counter and setting its exit value before the payload is sent. */
    method ExpectPayload()
      modifies this
      ensures Snapshot() == ExpectPayloadStep(old(Snapshot()))
    {
      ragentRead := 0;
      ragentReadExit := 16;
    }
  }
}
