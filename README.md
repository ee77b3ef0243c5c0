# henkan keyboard remapper: a Dafny model of the hook

henkan installs a global low-level keyboard hook on Windows. It tracks the
Japanese IME keys Convert (変換, VK 0x1C) and NonConvert (無変換, VK 0x1D).
While Convert is held, a key-down of I, K, J or L is replaced by a
synthesized press and release of Up, Down, Left or Right, and the original
key-down is suppressed. Every other event is passed on to the next hook.

The model has three modules:

- `Keys` (`keys.dfy`): the virtual-key constants, the `as u16` truncation of
  the hook record's 32-bit `vkCode`, the four message kinds the hook tests
  for, and the fixed remap table as the function `Remap`.
- `Dispatch` (`dispatch.dfy`): one hook invocation as the pure function
  `Step`. It maps the modifier flags and a `HookCall` to the new flags, the
  input records synthesized and the verdict. A `HookCall` holds the hook
  code, the message, the vkCode and the availability facts. `Run` folds
  `Step` over a sequence of invocations. The lemmas over `Run` state what
  the hook guarantees across events.
- `Hook` (`hook.dfy`): the imperative code. `KeyState` is a class whose two
  flags the hook updates in place. `InputQueue` stands for the system input
  stream that `SendInput` appends to. `SendKey` fills a two-element input
  array field by field. `KeyboardHookProc` follows the source branch by
  branch, with its early returns and its `shouldBlockKey` flag. Its
  postcondition ties the new flags, the appended records and the verdict
  to `Dispatch.Step`.

Context availability is an input to the model. This keeps the remapping
branch reachable. In the source, both thread-local getters always return
`None` (src/main.rs:94 and 99), so the program as written always forwards.
The model takes these facts as inputs:

- a null `keyState` means the key-state handle is missing;
- `running == None` means the running flag is missing, and `Some(b)` is the
  flag's current value;
- `lockAcquired` says whether `key_state.lock()` succeeded.

The verdict `Block` stands for returning `LRESULT(1)`. `Forward` stands for
returning whatever `CallNextHookEx` returns; that value is opaque.

Three facts about the code's behaviour:

- Only Convert gates remapping. NonConvert is tracked but gates nothing
  (`Dispatch.NonConvertNeverRemaps`).
- The remap check runs after the gate update on every event, gate events
  included. No gate key is a trigger, so gate events never remap
  (`Dispatch.GateEventsSynthesizeNothing`).
- The hook does not tell injected events from real ones. The synthesized
  arrow keys are inert if they come back into the hook: they change no flag
  and are forwarded (`Dispatch.InjectedInputPassesThrough`).

## Model

| member | source | states |
|---|---|---|
| Keys.VirtualKey | src/main.rs:126 | the cast keeps the low 16 bits of vkCode: identity below 0x10000, and always congruent to vkCode modulo 0x10000 |
| Keys.Remap | src/main.rs:154-176 | a key is remapped exactly when it is I, J, K or L; I gives Up, K gives Down, J gives Left and L gives Right |
| Keys.RemapInjective | src/main.rs:154-176 | two triggers that remap to the same key are the same trigger (no two rules emit the same arrow) |
| Keys.ArrowsAreInert | src/main.rs:9-18 | the four arrow keys are neither gate keys nor triggers, and have no remap |
| Dispatch.KeyTap | src/main.rs:195-204 | exactly two keyboard records for the same key: the first without the key-up flag, the second with it |
| Dispatch.Step | src/main.rs:103-190 | fail-open (code < 0, missing context, running false, lock failure: Forward, no records, flags unchanged); a Convert/NonConvert down sets its flag and an up clears it; other keys and other messages keep the flags; Block if and only if the call proceeds, Convert is held after the update and a trigger goes down, and then the records are the tap of its arrow; Forward means no records |
| Dispatch.Run | src/main.rs:103-190 | a sequence of hook invocations yields exactly one verdict per invocation |
| Dispatch.RunFailOpen | src/main.rs:105-122 | in any sequence, every call that fails the code, context, running or lock test is forwarded; if no call passes them, the flags are kept, nothing is synthesized and every event is forwarded |
| Dispatch.TriggerDownWhileConvertHeld | src/main.rs:153-174 | a key-down of I, K, J or L that reaches the update with Convert held yields the tap of Up, Down, Left or Right respectively, the verdict Block, and unchanged flags |
| Dispatch.FlagIsLastTransition | src/main.rs:135-150 | after any sequence of invocations, each modifier flag is true if and only if its key's last effective transition was a key-down, or there was none and the flag was initially set |
| Dispatch.GateEventsSynthesizeNothing | src/main.rs:153-176 | any sequence of Convert/NonConvert events synthesizes no records and every verdict is Forward |
| Dispatch.ConvertBurst | src/main.rs:135-141 | Convert down, up, down with no trigger in between leaves Convert held and synthesizes nothing |
| Dispatch.NonConvertNeverRemaps | src/main.rs:144-180 | the NonConvert flag never affects the records or the verdict |
| Dispatch.InjectedInputPassesThrough | src/main.rs:153-176 | every synthesized record, fed back to the hook as a down or up, is forwarded with no records and no flag change |
| Dispatch.ConvertIScenario | src/main.rs:135-174 | Convert down then I down: one Up tap, verdicts Forward then Block, Convert still held |
| Dispatch.BareIScenario | src/main.rs:153-188 | I down with nothing held is forwarded and nothing is synthesized |
| Dispatch.ConvertKReleaseScenario | src/main.rs:135-188 | Convert down, K down, Convert up, K down: only the first K is remapped (one Down tap) and blocked; the second is forwarded |
| Hook.KeyState.constructor | src/main.rs:42-45 | the key state starts with both flags released |
| Hook.InputQueue.SendInput | src/main.rs:206 | the records are appended to the input stream in order |
| Hook.SendKey | src/main.rs:193-207 | the input stream grows by exactly the key tap of the given key |
| Hook.KeyboardHookProc | src/main.rs:103-190 | the new flags, the records appended to the input stream and the verdict are those of `Dispatch.Step` on the old flags and the call |

## Left out

- `main` (src/main.rs:25-81) is not modelled. It covers the Ctrl-C handler, the `Arc`/`Mutex`/`AtomicBool` setup, installing and removing the hook and the message loop with its 10 ms sleep. All of this is OS I/O, timing and process lifetime. Only the initial key state (src/main.rs:42-45) is modelled, as `Hook.KeyState.constructor`.
- The thread-local storage functions (src/main.rs:84-100) are empty placeholders. Their results are inputs of the model: `keyState` and `running`.
- The raw-pointer read of `KBDLLHOOKSTRUCT` (src/main.rs:125) is not modelled. The event arrives already decoded into a vkCode and a message kind. The numeric `WM_*` values behind the message kinds are not modelled.
- `SendInput` is modelled only as appending its records to `InputQueue.injected`. Its return value is ignored by the source and not modelled. The `cbSize` argument and the fields of an input record other than type, key and key-up flag are not modelled.
- `CallNextHookEx` is not modelled; its result is summarised by the verdict `Forward`.
- Mutex semantics are not modelled: blocking, poisoning and visibility across threads. A failed lock is one boolean input, and the lock is assumed to be released when the call returns.
- `setup_tray_icon` (src/main.rs:211-215) is an empty stub and is not modelled.
- The source has no check on injected events, and the model adds none.
