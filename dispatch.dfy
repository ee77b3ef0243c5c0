/** The decision made by one invocation of the low-level keyboard hook,
    as a pure function of the modifier flags and the event, and its
    iteration over a sequence of invocations. */
module Dispatch {
  import opened Keys

  /** The value of the shared modifier state. */
  datatype Flags = Flags(convertPressed: bool, nonconvertPressed: bool)

  const Released := Flags(false, false)

  /** One entry of the synthetic input array handed to the OS. */
  datatype Input = Input(isKeyboard: bool, wVk: U16, keyUp: bool)

  /** A zeroed input record: not a keyboard record, key 0, no flags. */
  const DefaultInput := Input(false, 0, false)

  /** Block returns the suppressing sentinel; Forward passes the event on
      to the next hook in the chain. */
  datatype Verdict = Block | Forward

  /** What the hook finds available when it runs: whether the key-state
      handle and the running flag could be obtained (the flag's value when
      it could), and whether the lock on the key state was acquired. */
  datatype Context = Context(hasKeyState: bool, running: Option<bool>, lockAcquired: bool)

  const Live := Context(true, Some(true), true)

  /** One hook invocation: the hook code, the message, the raw vkCode. */
  datatype HookCall = HookCall(code: int, message: Message, vkCode: U32, context: Context)

  datatype Outcome = Outcome(state: Flags, records: seq<Input>, verdict: Verdict)

  /** A synthesized press and release of `k`. */
  function KeyTap(k: U16): (r: seq<Input>)
    ensures |r| == 2
    ensures forall i :: 0 <= i < |r| ==> r[i].isKeyboard && r[i].wVk == k
    ensures !r[0].keyUp && r[1].keyUp
  {
    [Input(true, k, false), Input(true, k, true)]
  }

  /** The hook reaches the state update: code is non-negative, both
      handles are present, running is set and the lock was acquired. */
  predicate Proceeds(c: HookCall) {
    c.code >= 0 && c.context.hasKeyState && c.context.running == Some(true) && c.context.lockAcquired
  }

  /** A modifier flag after an event: set by a key-down of the gate,
      cleared by its key-up, otherwise kept. */
  function Track(pressed: bool, isGate: bool, m: Message): bool {
    if isGate && IsKeyDown(m) then true
    else if isGate && IsKeyUp(m) then false
    else pressed
  }

  function Step(s: Flags, c: HookCall): (r: Outcome)
    // fail-open: every degraded path forwards and changes nothing
    ensures !Proceeds(c) ==> r == Outcome(s, [], Forward)
    // gate tracking
    ensures Proceeds(c) && VirtualKey(c.vkCode) == VkConvert && IsKeyDown(c.message) ==> r.state.convertPressed
    ensures Proceeds(c) && VirtualKey(c.vkCode) == VkConvert && IsKeyUp(c.message) ==> !r.state.convertPressed
    ensures Proceeds(c) && VirtualKey(c.vkCode) == VkNonConvert && IsKeyDown(c.message) ==> r.state.nonconvertPressed
    ensures Proceeds(c) && VirtualKey(c.vkCode) == VkNonConvert && IsKeyUp(c.message) ==> !r.state.nonconvertPressed
    ensures VirtualKey(c.vkCode) != VkConvert || (!IsKeyDown(c.message) && !IsKeyUp(c.message))
      ==> r.state.convertPressed == s.convertPressed
    ensures VirtualKey(c.vkCode) != VkNonConvert || (!IsKeyDown(c.message) && !IsKeyUp(c.message))
      ==> r.state.nonconvertPressed == s.nonconvertPressed
    // remap and suppress exactly when Convert is held and a trigger goes down
    ensures r.verdict == Block <==>
      Proceeds(c) && r.state.convertPressed && IsKeyDown(c.message) && IsTrigger(VirtualKey(c.vkCode))
    ensures r.verdict == Block ==> r.records == KeyTap(Remap(VirtualKey(c.vkCode)).value)
    ensures r.verdict == Forward ==> r.records == []
  {
    if !Proceeds(c) then Outcome(s, [], Forward)
    else
      var vk := VirtualKey(c.vkCode);
      var s' := Flags(Track(s.convertPressed, vk == VkConvert, c.message),
                      Track(s.nonconvertPressed, vk == VkNonConvert, c.message));
      if s'.convertPressed && IsKeyDown(c.message) && Remap(vk).Some? then
        Outcome(s', KeyTap(Remap(vk).value), Block)
      else
        Outcome(s', [], Forward)
  }

  /** The state after a sequence of invocations, every record synthesized
      along the way in order, and each invocation's verdict. */
  datatype Trace = Trace(state: Flags, records: seq<Input>, verdicts: seq<Verdict>)

  function Run(s: Flags, calls: seq<HookCall>): (t: Trace)
    ensures |t.verdicts| == |calls|
    decreases |calls|
  {
    if calls == [] then Trace(s, [], [])
    else
      var prev := Run(s, calls[..|calls| - 1]);
      var o := Step(prev.state, calls[|calls| - 1]);
      Trace(o.state, prev.records + o.records, prev.verdicts + [o.verdict])
  }

  /** Fail-open over sequences: every call that does not reach the state
      update is forwarded, and a sequence in which no call reaches it keeps
      the flags, synthesizes nothing and forwards every event. */
  lemma {:induction false} RunFailOpen(s: Flags, calls: seq<HookCall>)
    ensures forall i :: 0 <= i < |calls| && !Proceeds(calls[i]) ==> Run(s, calls).verdicts[i] == Forward
    ensures (forall i :: 0 <= i < |calls| ==> !Proceeds(calls[i])) ==> Run(s, calls) == Trace(s, [], seq(|calls|, _ => Forward))
    decreases |calls|
  {
    if calls != [] {
      var p := calls[..|calls| - 1];
      RunFailOpen(s, p);
      assert forall i :: 0 <= i < |p| ==> p[i] == calls[i];
      assert forall i :: 0 <= i < |p| ==> Run(s, calls).verdicts[i] == Run(s, p).verdicts[i];
    }
  }

  datatype Gate = ConvertGate | NonConvertGate

  function GateKey(g: Gate): U16 {
    match g
    case ConvertGate => VkConvert
    case NonConvertGate => VkNonConvert
  }

  function Pressed(s: Flags, g: Gate): bool {
    match g
    case ConvertGate => s.convertPressed
    case NonConvertGate => s.nonconvertPressed
  }

  /** A call that reaches the state update with a down or up of gate `g`. */
  predicate GateTransition(c: HookCall, g: Gate) {
    Proceeds(c) && VirtualKey(c.vkCode) == GateKey(g) && (IsKeyDown(c.message) || IsKeyUp(c.message))
  }

  ghost predicate NoTransitionAfter(calls: seq<HookCall>, g: Gate, i: int) {
    forall j :: 0 <= j < |calls| && i < j ==> !GateTransition(calls[j], g)
  }

  /** The gate is held after `calls`: its most recent transition was a
      key-down, or it had none and was held to begin with. */
  ghost predicate HeldAfter(init: bool, calls: seq<HookCall>, g: Gate) {
    (exists i :: 0 <= i < |calls| && GateTransition(calls[i], g) && IsKeyDown(calls[i].message)
                 && NoTransitionAfter(calls, g, i))
    || (init && NoTransitionAfter(calls, g, -1))
  }

  /** Each modifier flag equals the direction of the last transition of
      its key (or its initial value when there was none). */
  lemma {:induction false} FlagIsLastTransition(s: Flags, calls: seq<HookCall>, g: Gate)
    ensures Pressed(Run(s, calls).state, g) <==> HeldAfter(Pressed(s, g), calls, g)
    decreases |calls|
  {
    if calls != [] {
      var n := |calls|;
      var p := calls[..n - 1];
      var last := calls[n - 1];
      FlagIsLastTransition(s, p, g);
      var before := Run(s, p).state;
      assert Run(s, calls).state == Step(before, last).state;
      assert forall j :: 0 <= j < n - 1 ==> p[j] == calls[j];
      if GateTransition(last, g) {
        if IsKeyDown(last.message) {
          assert Pressed(Run(s, calls).state, g);
          assert NoTransitionAfter(calls, g, n - 1);
        } else {
          assert !Pressed(Run(s, calls).state, g);
          assert !NoTransitionAfter(calls, g, -1);
          forall i | 0 <= i < n && GateTransition(calls[i], g) && IsKeyDown(calls[i].message)
            ensures !NoTransitionAfter(calls, g, i)
          {
            assert i != n - 1;
          }
        }
      } else {
        assert Pressed(Run(s, calls).state, g) == Pressed(before, g);
        assert NoTransitionAfter(calls, g, -1) == NoTransitionAfter(p, g, -1);
        forall i | 0 <= i < n - 1
          ensures NoTransitionAfter(calls, g, i) == NoTransitionAfter(p, g, i)
        {
        }
      }
    }
  }

  /** A key-down of a trigger that reaches the update while Convert is held
      synthesizes the tap of that trigger's arrow and blocks the original;
      the flags are unchanged, since no trigger is a gate. */
  lemma TriggerDownWhileConvertHeld(s: Flags, c: HookCall)
    requires Proceeds(c) && s.convertPressed && IsKeyDown(c.message)
    ensures VirtualKey(c.vkCode) == VkI ==> Step(s, c) == Outcome(s, KeyTap(VkUp), Block)
    ensures VirtualKey(c.vkCode) == VkK ==> Step(s, c) == Outcome(s, KeyTap(VkDown), Block)
    ensures VirtualKey(c.vkCode) == VkJ ==> Step(s, c) == Outcome(s, KeyTap(VkLeft), Block)
    ensures VirtualKey(c.vkCode) == VkL ==> Step(s, c) == Outcome(s, KeyTap(VkRight), Block)
  {
  }

  /** Gate events never match a remap arm: a run of NonConvert/Convert
      events synthesizes nothing and blocks nothing. */
  lemma {:induction false} GateEventsSynthesizeNothing(s: Flags, calls: seq<HookCall>)
    requires forall i :: 0 <= i < |calls| ==> IsGateKey(VirtualKey(calls[i].vkCode))
    ensures Run(s, calls).records == []
    ensures forall i :: 0 <= i < |calls| ==> Run(s, calls).verdicts[i] == Forward
    decreases |calls|
  {
    if calls != [] {
      GateEventsSynthesizeNothing(s, calls[..|calls| - 1]);
    }
  }

  /** Convert down, up, down with no trigger in between leaves Convert
      held and synthesizes nothing. */
  lemma ConvertBurst(s: Flags, code: int)
    requires code >= 0
    ensures var calls := [HookCall(code, KeyDown, VkConvert, Live),
                          HookCall(code, KeyUp, VkConvert, Live),
                          HookCall(code, KeyDown, VkConvert, Live)];
            Run(s, calls).state.convertPressed && Run(s, calls).records == []
  {
    var calls := [HookCall(code, KeyDown, VkConvert, Live),
                  HookCall(code, KeyUp, VkConvert, Live),
                  HookCall(code, KeyDown, VkConvert, Live)];
    GateEventsSynthesizeNothing(s, calls);
    FlagIsLastTransition(s, calls, ConvertGate);
    assert NoTransitionAfter(calls, ConvertGate, 2);
  }

  /** NonConvert is tracked but never causes synthesis or blocking: the
      records and the verdict do not depend on its flag. */
  lemma NonConvertNeverRemaps(s: Flags, b: bool, c: HookCall)
    ensures Step(s.(nonconvertPressed := b), c).records == Step(s, c).records
    ensures Step(s.(nonconvertPressed := b), c).verdict == Step(s, c).verdict
  {
  }

  /** The records the hook synthesizes are arrow keys; fed back into the
      hook they change no flag and are forwarded unchanged. */
  lemma InjectedInputPassesThrough(s: Flags, c: HookCall, t: Flags, code: int, ctx: Context)
    ensures forall k :: 0 <= k < |Step(s, c).records| ==>
      var r := Step(s, c).records[k];
      Step(t, HookCall(code, if r.keyUp then KeyUp else KeyDown, r.wVk, ctx)) == Outcome(t, [], Forward)
  {
  }

  /** Scenario: Convert down, then I down, synthesizes Up, blocks I and
      leaves Convert held. */
  lemma ConvertIScenario()
    ensures var t := Run(Released, [HookCall(0, KeyDown, VkConvert, Live), HookCall(0, KeyDown, VkI, Live)]);
            t.records == KeyTap(VkUp) && t.verdicts == [Forward, Block] && t.state.convertPressed
  {
    var calls := [HookCall(0, KeyDown, VkConvert, Live), HookCall(0, KeyDown, VkI, Live)];
    assert calls[..1] == [calls[0]];
    assert Run(Released, calls[..1]).state == Flags(true, false);
  }

  /** Scenario: I down without Convert is forwarded, nothing is synthesized. */
  lemma BareIScenario()
    ensures var t := Run(Released, [HookCall(0, KeyDown, VkI, Live)]);
            t.records == [] && t.verdicts == [Forward]
  {
  }

  /** Scenario: Convert down, K down, Convert up, K down: only the first K
      is remapped (to Down) and blocked. */
  lemma ConvertKReleaseScenario()
    ensures var t := Run(Released, [HookCall(0, KeyDown, VkConvert, Live), HookCall(0, KeyDown, VkK, Live),
                                    HookCall(0, KeyUp, VkConvert, Live), HookCall(0, KeyDown, VkK, Live)]);
            t.records == KeyTap(VkDown) && t.verdicts == [Forward, Block, Forward, Forward]
            && !t.state.convertPressed
  {
    var calls := [HookCall(0, KeyDown, VkConvert, Live), HookCall(0, KeyDown, VkK, Live),
                  HookCall(0, KeyUp, VkConvert, Live), HookCall(0, KeyDown, VkK, Live)];
    assert calls[..1] == [calls[0]];
    assert calls[..1][..0] == [];
    assert calls[..2][..1] == calls[..1];
    assert calls[..3][..2] == calls[..2];
    var t1 := Run(Released, calls[..1]);
    assert Run(Released, []) == Trace(Released, [], []);
    assert Step(Released, calls[0]) == Outcome(Flags(true, false), [], Forward);
    assert t1 == Trace(Flags(true, false), [], [Forward]);
    var t2 := Run(Released, calls[..2]);
    assert t2 == Trace(Flags(true, false), KeyTap(VkDown), [Forward, Block]);
    var t3 := Run(Released, calls[..3]);
    assert t3 == Trace(Flags(false, false), KeyTap(VkDown), [Forward, Block, Forward]);
    assert Run(Released, calls) == Trace(Flags(false, false), KeyTap(VkDown), [Forward, Block, Forward, Forward]);
  }
}
