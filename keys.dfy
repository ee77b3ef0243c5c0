/** Virtual-key codes, the message kinds the hook distinguishes, and the
    fixed remap table of the Convert layer. */
module Keys {

  datatype Option<+T> = None | Some(value: T)

  /** Unsigned 16-bit value (the type of a Windows virtual-key code). */
  type U16 = x: int | 0 <= x < 0x1_0000

  /** Unsigned 32-bit value (the type of the hook record's vkCode field). */
  type U32 = x: int | 0 <= x < 0x1_0000_0000

  const VkConvert: U16 := 0x1C
  const VkNonConvert: U16 := 0x1D
  const VkI: U16 := 0x49
  const VkJ: U16 := 0x4A
  const VkK: U16 := 0x4B
  const VkL: U16 := 0x4C
  const VkUp: U16 := 0x26
  const VkLeft: U16 := 0x25
  const VkDown: U16 := 0x28
  const VkRight: U16 := 0x27

  /** The window message that accompanies a low-level keyboard event. */
  datatype Message = KeyDown | SysKeyDown | KeyUp | SysKeyUp | OtherMessage

  predicate IsKeyDown(m: Message) { m == KeyDown || m == SysKeyDown }

  predicate IsKeyUp(m: Message) { m == KeyUp || m == SysKeyUp }

  /** The `as u16` cast of the 32-bit vkCode: it keeps the low 16 bits. */
  function VirtualKey(vkCode: U32): (vk: U16)
    ensures vkCode < 0x1_0000 ==> vk == vkCode
    ensures (vkCode - vk) % 0x1_0000 == 0
  {
    vkCode % 0x1_0000
  }

  predicate IsGateKey(vk: U16) { vk == VkConvert || vk == VkNonConvert }

  predicate IsTrigger(vk: U16) { vk == VkI || vk == VkJ || vk == VkK || vk == VkL }

  predicate IsArrow(vk: U16) { vk == VkUp || vk == VkDown || vk == VkLeft || vk == VkRight }

  /** The key synthesized for a key-down of `vk` while Convert is held. */
  function Remap(vk: U16): (r: Option<U16>)
    ensures r.Some? <==> IsTrigger(vk)
    ensures r.Some? ==> IsArrow(r.value)
    ensures vk == VkI ==> r == Some(VkUp)
    ensures vk == VkK ==> r == Some(VkDown)
    ensures vk == VkJ ==> r == Some(VkLeft)
    ensures vk == VkL ==> r == Some(VkRight)
  {
    if vk == VkI then Some(VkUp)
    else if vk == VkK then Some(VkDown)
    else if vk == VkJ then Some(VkLeft)
    else if vk == VkL then Some(VkRight)
    else None
  }

  /** No two triggers share an arrow. */
  lemma RemapInjective(a: U16, b: U16)
    requires Remap(a).Some? && Remap(a) == Remap(b)
    ensures a == b
  {
  }

  /** The synthesized arrows are neither gates nor triggers themselves. */
  lemma ArrowsAreInert(vk: U16)
    requires IsArrow(vk)
    ensures !IsGateKey(vk) && !IsTrigger(vk) && Remap(vk) == None
  {
  }
}
