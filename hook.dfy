/** The low-level keyboard hook procedure: it updates the shared key state
    in place, appends synthetic input to the OS input stream and returns
    whether the original event is suppressed. */
module Hook {
  import opened Keys
  import opened Dispatch

  /** The modifier state shared with the hook behind a lock. */
  class KeyState {
    var convertPressed: bool
    var nonconvertPressed: bool

    constructor ()
      ensures Flags() == Released
    {
      convertPressed := false;
      nonconvertPressed := false;
    }

    function Flags(): Flags
      reads this
    {
      Dispatch.Flags(convertPressed, nonconvertPressed)
    }
  }

  /** The system input stream, as far as the hook can see it: every record
      injected through SendInput, in order. */
  class InputQueue {
    var injected: seq<Input>

    constructor ()
      ensures injected == []
    {
      injected := [];
    }

    /** SendInput: injects the records in order. Its return value (how
        many records were accepted) is ignored by the hook and not modelled. */
    method SendInput(inputs: seq<Input>)
      modifies this
      ensures injected == old(injected) + inputs
    {
      injected := injected + inputs;
    }
  }

  /** The flags the hook would see through `k`; `Released` stands in when
      there is no key state, in which case the hook does not consult it. */
  function FlagsOf(k: KeyState?): Flags
    reads k
  {
    if k == null then Released else k.Flags()
  }

  /** send_key: fills a two-record input array, a key-down and a key-up of
      `keyCode`, and injects it. */
  method SendKey(queue: InputQueue, keyCode: U16)
    modifies queue
    ensures queue.injected == old(queue.injected) + KeyTap(keyCode)
  {
    var inputs := new Input[2](_ => DefaultInput);

    inputs[0] := inputs[0].(isKeyboard := true);
    inputs[0] := inputs[0].(wVk := keyCode);

    inputs[1] := inputs[1].(isKeyboard := true);
    inputs[1] := inputs[1].(wVk := keyCode);
    inputs[1] := inputs[1].(keyUp := true);

    queue.SendInput(inputs[..]);
  }

  /** keyboard_hook_proc. `keyState` is null when the key-state handle is
      unavailable; `running` is None when the running flag is unavailable
      and otherwise holds its current value; `lockAcquired` says whether
      locking the key state succeeded. */
  method KeyboardHookProc(code: int, message: Message, vkCode: U32,
                          keyState: KeyState?, running: Option<bool>, lockAcquired: bool,
                          queue: InputQueue)
      returns (verdict: Verdict)
    modifies keyState, queue
    ensures var r := Step(old(FlagsOf(keyState)),
                          HookCall(code, message, vkCode, Context(keyState != null, running, lockAcquired)));
            FlagsOf(keyState) == r.state
            && queue.injected == old(queue.injected) + r.records
            && verdict == r.verdict
  {
    if code < 0 {
      return Forward;
    }

    if keyState == null || running.None? {
      return Forward;
    }

    if !running.value {
      return Forward;
    }

    var virtualKey := VirtualKey(vkCode);
    var isKeyDown := IsKeyDown(message);
    var isKeyUp := IsKeyUp(message);

    var shouldBlockKey := false;

    if lockAcquired {
      if virtualKey == VkConvert {
        if isKeyDown {
          keyState.convertPressed := true;
        } else if isKeyUp {
          keyState.convertPressed := false;
        }
      }

      if virtualKey == VkNonConvert {
        if isKeyDown {
          keyState.nonconvertPressed := true;
        } else if isKeyUp {
          keyState.nonconvertPressed := false;
        }
      }

      if keyState.convertPressed && isKeyDown {
        if virtualKey == VkI {
          SendKey(queue, VkUp);
          shouldBlockKey := true;
        } else if virtualKey == VkK {
          SendKey(queue, VkDown);
          shouldBlockKey := true;
        } else if virtualKey == VkJ {
          SendKey(queue, VkLeft);
          shouldBlockKey := true;
        } else if virtualKey == VkL {
          SendKey(queue, VkRight);
          shouldBlockKey := true;
        }
      }
    }

    if shouldBlockKey {
      return Block;
    }

    return Forward;
  }
}
