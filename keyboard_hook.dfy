/** `KeyboardHook`: registers system-wide hot keys against a hidden message window, hands out
    the ids it registers them under, and turns `WM_HOTKEY` messages into key-pressed events. */
module KeyboardHook {
  import opened Wrappers
  import opened Text
  import opened ModifierKeysConverter

  /** A 32-bit signed value. */
  type Int32 = x: int | -0x8000_0000 <= x <= 0x7FFF_FFFF

  /** `System.Windows.Forms.Keys`: an `int` enum, so any 32-bit value. */
  type Keys = Int32

  /** `(uint)x` of a 32-bit value: its bit pattern read as unsigned. */
  function AsUInt32(x: Int32): (u: int)
    ensures 0 <= u < 0x1_0000_0000
    ensures u % 0x1_0000_0000 == x % 0x1_0000_0000
    ensures 0 <= x ==> u == x
  {
    if x < 0 then x + 0x1_0000_0000 else x
  }

  /** A 32-bit pattern read back as a two's-complement value. */
  function AsInt32Bits(u: int): (x: Int32)
    requires 0 <= u < 0x1_0000_0000
    ensures AsUInt32(x) == u
  {
    if u < 0x8000_0000 then u else u - 0x1_0000_0000
  }

  /** The arguments of one native `RegisterHotKey` call: the modifier mask and the key code,
      both passed as `uint`. */
  datatype HotKey = HotKey(fsModifiers: int, vk: int)

  /** The one error `RegisterHotKey` raises: `InvalidOperationException` when the native call
      refuses the combination. */
  datatype HookError = CouldNotRegister

  /** `KeyPressedEventArgs`: the modifiers and the native `Keys` of a pressed hot key. */
  datatype KeyPressedEventArgs = KeyPressedEventArgs(modifier: ModifierKeys, key: Keys)

  const WM_HOTKEY: int := 0x0312

  /** `WndProc` on a `WM_HOTKEY` message, with `lParam` the value of `(int)m.LParam`: the
      modifiers are bits 0..15 (`lParam & 0xFFFF`) and the key bits 16..31
      (`(lParam >> 16) & 0xFFFF`). Masking a two's-complement value with 0xFFFF is taking it
      modulo 0x10000, and an arithmetic shift right by 16 is floor division by 0x10000. */
  function HotKeyWords(lParam: Int32): (words: (int, int))
    ensures 0 <= words.0 < 0x10000 && 0 <= words.1 < 0x10000
    ensures words.1 * 0x10000 + words.0 == AsUInt32(lParam)
  {
    LParamWords(lParam);
    (lParam % 0x10000, (lParam / 0x10000) % 0x10000)
  }

  /** The two 16-bit halves of a 32-bit value put back together give its unsigned pattern. */
  lemma {:induction false} LParamWords(x: Int32)
    ensures AsUInt32(x) == ((x / 0x10000) % 0x10000) * 0x10000 + x % 0x10000
  {
    var q := x / 0x10000;
    var r := x % 0x10000;
    assert x == q * 0x10000 + r;
    if x < 0 {
      assert -0x8000 <= q < 0;
      assert (q + 0x10000) % 0x10000 == q % 0x10000;
    } else {
      assert 0 <= q < 0x8000;
    }
  }

  /** The event arguments `WndProc` builds from a `WM_HOTKEY` message. */
  function HotKeyArgs(lParam: Int32): (args: KeyPressedEventArgs)
    ensures 0 <= args.key < 0x10000
    ensures args.modifier == HotKeyWords(lParam).0 as bv32
  {
    var words := HotKeyWords(lParam);
    KeyPressedEventArgs(words.0 as bv32, words.1)
  }

  /** `WndProc`: a `WM_HOTKEY` message raises `KeyPressed` with the decoded arguments; every
      other message raises nothing. */
  function WndProc(msg: int, lParam: Int32): (event: Option<KeyPressedEventArgs>)
    ensures event.Some? <==> msg == WM_HOTKEY
    ensures event.Some? ==> event.value == HotKeyArgs(lParam)
  {
    if msg == WM_HOTKEY then Some(HotKeyArgs(lParam)) else None
  }

  /** The `lParam` Windows posts for a hot key: the key code in the high word and the
      modifier mask in the low word, read as a signed 32-bit value. */
  function HotKeyLParam(modifier: int, key: int): (lParam: Int32)
    requires 0 <= modifier < 0x10000 && 0 <= key < 0x10000
    ensures AsUInt32(lParam) == key * 0x10000 + modifier
  {
    AsInt32Bits(key * 0x10000 + modifier)
  }

  /** Decoding the posted `lParam` gives back the modifiers and the key that were pressed. */
  lemma {:induction false} DecodeEncode(modifier: int, key: int)
    requires 0 <= modifier < 0x10000 && 0 <= key < 0x10000
    ensures HotKeyWords(HotKeyLParam(modifier, key)) == (modifier, key)
    ensures HotKeyArgs(HotKeyLParam(modifier, key)) == KeyPressedEventArgs(modifier as bv32, key)
  {
    var words := HotKeyWords(HotKeyLParam(modifier, key));
    WordsUnique(words.1, words.0, key, modifier);
  }

  /** Every 32-bit `lParam` is the one Windows posts for the words it decodes to. */
  lemma {:induction false} EncodeDecode(lParam: Int32)
    ensures HotKeyLParam(HotKeyWords(lParam).0, HotKeyWords(lParam).1) == lParam
  {
    var back := HotKeyLParam(HotKeyWords(lParam).0, HotKeyWords(lParam).1);
    assert AsUInt32(back) == AsUInt32(lParam);
  }

  /** A high word and a low word determine the 32-bit value they make. */
  lemma WordsUnique(h1: int, l1: int, h2: int, l2: int)
    requires 0 <= l1 < 0x10000 && 0 <= l2 < 0x10000
    requires h1 * 0x10000 + l1 == h2 * 0x10000 + l2
    ensures h1 == h2 && l1 == l2
  {
  }

  /** The ids from `from` down to `stop + 1`, in that order. */
  function Countdown(from: int, stop: int): (ids: seq<int>)
    decreases from - stop
  {
    if from <= stop then [] else [from] + Countdown(from - 1, stop)
  }

  /** `Countdown(n, 0)` lists n, n-1, ..., 1: every id from 1 to n, once each. */
  lemma {:induction false} CountdownContents(from: int, stop: int)
    requires stop <= from
    ensures |Countdown(from, stop)| == from - stop
    ensures forall k :: 0 <= k < from - stop ==> Countdown(from, stop)[k] == from - k
    decreases from - stop
  {
    if from > stop {
      CountdownContents(from - 1, stop);
    }
  }

  /** Counting one further down appends that id. */
  lemma {:induction false} CountdownStep(from: int, stop: int)
    requires stop <= from
    ensures Countdown(from, stop - 1) == Countdown(from, stop) + [stop]
    decreases from - stop
  {
    if from == stop {
      assert Countdown(from, stop - 1) == [from] + Countdown(from - 1, stop - 1);
    } else {
      CountdownStep(from - 1, stop);
      calc {
        Countdown(from, stop - 1);
        [from] + Countdown(from - 1, stop - 1);
        [from] + (Countdown(from - 1, stop) + [stop]);
        ([from] + Countdown(from - 1, stop)) + [stop];
      }
    }
  }

  /** `class KeyboardHook`. Besides the id counter, the model keeps what the native side sees:
      the hot keys held for the hook's window by id, the ids passed to `UnregisterHotKey` in
      order, and whether the window still exists. */
  class KeyboardHook {
    var currentId: int
    var registered: map<int, HotKey>
    var unregisterCalls: seq<int>
    var windowOpen: bool

    /** Every id the native side holds was handed out by this hook, so it lies in
        1..currentId. */
    predicate Valid()
      reads this
    {
      0 <= currentId && forall id :: id in registered ==> 1 <= id <= currentId
    }

    /** `new KeyboardHook()`: a fresh window, no hot keys, the counter at 0. */
    constructor()
      ensures Valid()
      ensures currentId == 0 && registered == map[] && unregisterCalls == [] && windowOpen
    {
      currentId := 0;
      registered := map[];
      unregisterCalls := [];
      windowOpen := true;
    }

    /** `RegisterHotKey`: takes the next id and asks the native side to bind the combination
        to it; `accepted` is the native call's answer. The id is used up either way, and a
        refusal raises `InvalidOperationException`. */
    method RegisterHotKey(modifier: ModifierKeys, key: Keys, accepted: bool) returns (r: Result<int, HookError>)
      requires Valid()
      modifies this
      ensures Valid()
      ensures currentId == old(currentId) + 1
      ensures r.Success? ==> r.value !in old(registered)
      ensures accepted ==> r == Success(currentId)
                           && registered == old(registered)[currentId := HotKey(modifier as int, AsUInt32(key))]
      ensures !accepted ==> r == Failure(CouldNotRegister) && registered == old(registered)
      ensures unregisterCalls == old(unregisterCalls) && windowOpen == old(windowOpen)
    {
      currentId := currentId + 1;
      if !accepted {
        return Failure(CouldNotRegister);
      }
      registered := registered[currentId := HotKey(modifier as int, AsUInt32(key))];
      return Success(currentId);
    }

    /** `UnregisterHotKey`: releases the id if it is held and ignores the native answer, so
        unknown, repeated and released ids are all accepted silently. */
    method UnregisterHotKey(id: int)
      requires Valid()
      modifies this
      ensures Valid()
      ensures registered == old(registered) - {id}
      ensures unregisterCalls == old(unregisterCalls) + [id]
      ensures currentId == old(currentId) && windowOpen == old(windowOpen)
    {
      registered := registered - {id};
      unregisterCalls := unregisterCalls + [id];
    }

    /** `Dispose`: unregisters every id from currentId down to 1, held or not, then destroys
        the window; no hot key is left behind. */
    method Dispose()
      requires Valid()
      modifies this
      ensures Valid()
      ensures registered == map[]
      ensures unregisterCalls == old(unregisterCalls) + Countdown(old(currentId), 0)
      ensures currentId == old(currentId) && !windowOpen
    {
      var i := currentId;
      while i > 0
        invariant 0 <= i <= currentId == old(currentId)
        invariant Valid()
        invariant forall id :: id in registered ==> 1 <= id <= i
        invariant unregisterCalls == old(unregisterCalls) + Countdown(currentId, i)
        invariant windowOpen == old(windowOpen)
        decreases i
      {
        CountdownStep(currentId, i);
        UnregisterHotKey(i);
        i := i - 1;
      }
      assert forall id :: id !in registered;
      assert registered.Keys == {};
      windowOpen := false;
    }
  }

  /** Two registrations in a row on the same hook hand out consecutive ids, whatever became of
      the first. */
  method RegisterTwice(hook: KeyboardHook, m1: ModifierKeys, k1: Keys, a1: bool, m2: ModifierKeys, k2: Keys, a2: bool)
      returns (r1: Result<int, HookError>, r2: Result<int, HookError>)
    requires hook.Valid()
    modifies hook
    ensures hook.Valid()
    ensures r1.Success? && r2.Success? ==> r2.value == r1.value + 1
    ensures r2.Success? ==> r2.value == old(hook.currentId) + 2
  {
    r1 := hook.RegisterHotKey(m1, k1, a1);
    r2 := hook.RegisterHotKey(m2, k2, a2);
  }
}
