/**
 * The status translator of the AIDL USB port HAL client: total maps from the
 * HAL's wire bytes (PortMode, ContaminantProtectionStatus) to the bit
 * constants of UsbPortStatus, and the set-valued variants that OR the
 * per-element translations together.
 */
module UsbStatusTranslation {
  import opened JavaTypes

  // Wire values of the AIDL enum PortMode (a byte-backed enum).
  const PORT_MODE_NONE: Int8 := 0
  const PORT_MODE_UFP: Int8 := 1
  const PORT_MODE_DFP: Int8 := 2
  const PORT_MODE_DRP: Int8 := 3
  const PORT_MODE_AUDIO_ACCESSORY: Int8 := 4
  const PORT_MODE_DEBUG_ACCESSORY: Int8 := 5

  // Wire values of the AIDL enum ContaminantProtectionStatus (a byte-backed enum).
  const CPS_NONE: Int8 := 0
  const CPS_FORCE_SINK: Int8 := 1
  const CPS_FORCE_SOURCE: Int8 := 2
  const CPS_FORCE_DISABLE: Int8 := 3
  const CPS_DISABLED: Int8 := 4

  // UsbPortStatus mode bits; MODE_DUAL is MODE_UFP | MODE_DFP.
  const MODE_NONE: bv32 := 0
  const MODE_UFP: bv32 := 1
  const MODE_DFP: bv32 := 2
  const MODE_DUAL: bv32 := 3
  const MODE_AUDIO_ACCESSORY: bv32 := 4
  const MODE_DEBUG_ACCESSORY: bv32 := 8

  // UsbPortStatus contaminant-protection bits.
  const CONTAMINANT_PROTECTION_NONE: bv32 := 0
  const CONTAMINANT_PROTECTION_SINK: bv32 := 1
  const CONTAMINANT_PROTECTION_SOURCE: bv32 := 2
  const CONTAMINANT_PROTECTION_FORCE_DISABLE: bv32 := 4
  const CONTAMINANT_PROTECTION_DISABLED: bv32 := 8

  /** The six PortMode values the translator recognises. */
  predicate KnownPortMode(b: Int8) {
    b == PORT_MODE_NONE || b == PORT_MODE_UFP || b == PORT_MODE_DFP || b == PORT_MODE_DRP
    || b == PORT_MODE_AUDIO_ACCESSORY || b == PORT_MODE_DEBUG_ACCESSORY
  }

  /** The five ContaminantProtectionStatus values the translator recognises. */
  predicate KnownContaminantProtection(b: Int8) {
    b == CPS_NONE || b == CPS_FORCE_SINK || b == CPS_FORCE_SOURCE
    || b == CPS_FORCE_DISABLE || b == CPS_DISABLED
  }

  /** The UsbPortStatus mode constants. */
  predicate IsModeConstant(m: bv32) {
    m == MODE_NONE || m == MODE_UFP || m == MODE_DFP || m == MODE_DUAL
    || m == MODE_AUDIO_ACCESSORY || m == MODE_DEBUG_ACCESSORY
  }

  /** The UsbPortStatus contaminant-protection constants. */
  predicate IsContaminantProtectionConstant(c: bv32) {
    c == CONTAMINANT_PROTECTION_NONE || c == CONTAMINANT_PROTECTION_SINK || c == CONTAMINANT_PROTECTION_SOURCE
    || c == CONTAMINANT_PROTECTION_FORCE_DISABLE || c == CONTAMINANT_PROTECTION_DISABLED
  }

  /** toPortMode: every byte has a translation; unknown bytes become MODE_NONE. */
  function ToPortMode(aidlPortMode: Int8): (r: bv32)
    ensures IsModeConstant(r)
    ensures !KnownPortMode(aidlPortMode) ==> r == MODE_NONE
    ensures r == MODE_NONE ==> aidlPortMode == PORT_MODE_NONE || !KnownPortMode(aidlPortMode)
  {
    match aidlPortMode
    case 0 => MODE_NONE
    case 1 => MODE_UFP
    case 2 => MODE_DFP
    case 3 => MODE_DUAL
    case 4 => MODE_AUDIO_ACCESSORY
    case 5 => MODE_DEBUG_ACCESSORY
    case _ => MODE_NONE
  }

  /**
   * toContaminantProtectionStatus: every byte has a translation; unknown bytes
   * become CONTAMINANT_PROTECTION_NONE.
   */
  function ToContaminantProtectionStatus(aidlContaminantProtection: Int8): (r: bv32)
    ensures IsContaminantProtectionConstant(r)
    ensures !KnownContaminantProtection(aidlContaminantProtection) ==> r == CONTAMINANT_PROTECTION_NONE
    ensures r == CONTAMINANT_PROTECTION_NONE ==>
              aidlContaminantProtection == CPS_NONE || !KnownContaminantProtection(aidlContaminantProtection)
  {
    match aidlContaminantProtection
    case 0 => CONTAMINANT_PROTECTION_NONE
    case 1 => CONTAMINANT_PROTECTION_SINK
    case 2 => CONTAMINANT_PROTECTION_SOURCE
    case 3 => CONTAMINANT_PROTECTION_FORCE_DISABLE
    case 4 => CONTAMINANT_PROTECTION_DISABLED
    case _ => CONTAMINANT_PROTECTION_NONE
  }

  /** Reads a UsbPortStatus mode constant back as the PortMode byte it came from. */
  function PortModeOf(mode: bv32): Option<Int8> {
    if mode == MODE_NONE then Some(PORT_MODE_NONE)
    else if mode == MODE_UFP then Some(PORT_MODE_UFP)
    else if mode == MODE_DFP then Some(PORT_MODE_DFP)
    else if mode == MODE_DUAL then Some(PORT_MODE_DRP)
    else if mode == MODE_AUDIO_ACCESSORY then Some(PORT_MODE_AUDIO_ACCESSORY)
    else if mode == MODE_DEBUG_ACCESSORY then Some(PORT_MODE_DEBUG_ACCESSORY)
    else None
  }

  /** Reads a UsbPortStatus contaminant-protection constant back as its wire byte. */
  function ContaminantProtectionOf(status: bv32): Option<Int8> {
    if status == CONTAMINANT_PROTECTION_NONE then Some(CPS_NONE)
    else if status == CONTAMINANT_PROTECTION_SINK then Some(CPS_FORCE_SINK)
    else if status == CONTAMINANT_PROTECTION_SOURCE then Some(CPS_FORCE_SOURCE)
    else if status == CONTAMINANT_PROTECTION_FORCE_DISABLE then Some(CPS_FORCE_DISABLE)
    else if status == CONTAMINANT_PROTECTION_DISABLED then Some(CPS_DISABLED)
    else None
  }

  /** No recognised PortMode loses information: the translation can be read back. */
  lemma PortModeRoundTrip(b: Int8)
    ensures KnownPortMode(b) <==> PortModeOf(ToPortMode(b)) == Some(b)
  {
  }

  /** No recognised ContaminantProtectionStatus loses information. */
  lemma ContaminantProtectionRoundTrip(b: Int8)
    ensures KnownContaminantProtection(b) <==> ContaminantProtectionOf(ToContaminantProtectionStatus(b)) == Some(b)
  {
  }

  /**
   * The set-valued translation: the bitwise OR of `f` over the elements,
   * starting from 0 (MODE_NONE and CONTAMINANT_PROTECTION_NONE), in element order.
   */
  function OrFold(s: seq<Int8>, f: Int8 -> bv32): bv32 {
    if s == [] then 0 else OrFold(s[..|s| - 1], f) | f(s[|s| - 1])
  }

  /** toSupportedModes: the accumulator loop over the wire array. */
  method ToSupportedModes(aidlPortModes: seq<Int8>) returns (supportedModes: bv32)
    ensures supportedModes == OrFold(aidlPortModes, ToPortMode)
    ensures aidlPortModes == [] ==> supportedModes == MODE_NONE
  {
    supportedModes := MODE_NONE;
    for i := 0 to |aidlPortModes|
      invariant supportedModes == OrFold(aidlPortModes[..i], ToPortMode)
    {
      assert aidlPortModes[..i + 1][..i] == aidlPortModes[..i];
      supportedModes := supportedModes | ToPortMode(aidlPortModes[i]);
    }
    assert aidlPortModes[..|aidlPortModes|] == aidlPortModes;
  }

  /** toSupportedContaminantProtectionModes: the accumulator loop over the wire array. */
  method ToSupportedContaminantProtectionModes(aidlModes: seq<Int8>) returns (supportedModes: bv32)
    ensures supportedModes == OrFold(aidlModes, ToContaminantProtectionStatus)
    ensures aidlModes == [] ==> supportedModes == CONTAMINANT_PROTECTION_NONE
  {
    supportedModes := CONTAMINANT_PROTECTION_NONE;
    for i := 0 to |aidlModes|
      invariant supportedModes == OrFold(aidlModes[..i], ToContaminantProtectionStatus)
    {
      assert aidlModes[..i + 1][..i] == aidlModes[..i];
      supportedModes := supportedModes | ToContaminantProtectionStatus(aidlModes[i]);
    }
    assert aidlModes[..|aidlModes|] == aidlModes;
  }

  /** Translating a concatenation ORs the two halves' translations. */
  lemma {:induction false} OrFoldAppend(a: seq<Int8>, b: seq<Int8>, f: Int8 -> bv32)
    ensures OrFold(a + b, f) == OrFold(a, f) | OrFold(b, f)
    decreases |b|
  {
    if b == [] {
      assert a + b == a;
    } else {
      var b' := b[..|b| - 1];
      assert (a + b)[..|a + b| - 1] == a + b';
      OrFoldAppend(a, b', f);
    }
  }

  /** Every bit set in `b` is also set in `a`. */
  predicate Includes(a: bv32, b: bv32) {
    a | b == a
  }

  lemma IncludesOr(a: bv32, b: bv32, c: bv32)
    requires Includes(a, c)
    ensures Includes(a | b, c)
  {
  }

  lemma IncludesSelf(a: bv32, b: bv32)
    ensures Includes(a | b, b)
  {
  }

  lemma IncludesBoth(v: bv32, a: bv32, b: bv32)
    requires Includes(v, a) && Includes(v, b)
    ensures Includes(v, a | b)
  {
  }

  lemma OrRearrange(p: bv32, q: bv32, r: bv32)
    ensures (p | r) | q == (p | q) | r
  {
  }

  /** Every element's translation is part of the result. */
  lemma {:induction false} OrFoldCovers(s: seq<Int8>, f: Int8 -> bv32, x: Int8)
    requires x in s
    ensures Includes(OrFold(s, f), f(x))
  {
    var s', y := s[..|s| - 1], s[|s| - 1];
    assert s == s' + [y];
    if x == y {
      IncludesSelf(OrFold(s', f), f(y));
    } else {
      OrFoldCovers(s', f, x);
      IncludesOr(OrFold(s', f), f(y), f(x));
    }
  }

  /**
   * The result holds no bit beyond the element translations: any value that
   * includes every element's translation includes the result. With
   * OrFoldCovers, the result is exactly the union of the translations.
   */
  lemma {:induction false} OrFoldLeast(s: seq<Int8>, f: Int8 -> bv32, v: bv32)
    requires forall x :: x in s ==> Includes(v, f(x))
    ensures Includes(v, OrFold(s, f))
  {
    if s != [] {
      var s', y := s[..|s| - 1], s[|s| - 1];
      assert s == s' + [y];
      OrFoldLeast(s', f, v);
      IncludesBoth(v, OrFold(s', f), f(y));
    }
  }

  /** The result does not depend on the order of the wire array. */
  lemma {:induction false} OrFoldPermutation(a: seq<Int8>, b: seq<Int8>, f: Int8 -> bv32)
    requires multiset(a) == multiset(b)
    ensures OrFold(a, f) == OrFold(b, f)
    decreases |a|
  {
    if a == [] {
      assert |b| == |multiset(b)| == 0;
    } else {
      var a', x := a[..|a| - 1], a[|a| - 1];
      var j := RemoveOne(a, b);
      var left, right := b[..j], b[j + 1..];
      OrFoldPermutation(a', left + right, f);
      OrFoldAppend(a', [x], f);
      assert a' + [x] == a;
      OrFoldAppend(left + [x], right, f);
      assert left + [x] + right == b;
      OrFoldAppend(left, [x], f);
      OrFoldAppend(left, right, f);
      OrRearrange(OrFold(left, f), f(x), OrFold(right, f));
    }
  }

  /** Finds the last element of `a` in `b`; what is left of `b` is a permutation of the rest of `a`. */
  lemma RemoveOne(a: seq<Int8>, b: seq<Int8>) returns (j: nat)
    requires a != [] && multiset(a) == multiset(b)
    ensures j < |b| && b[j] == a[|a| - 1]
    ensures multiset(a[..|a| - 1]) == multiset(b[..j] + b[j + 1..])
  {
    var a', x := a[..|a| - 1], a[|a| - 1];
    assert a == a' + [x];
    assert x in multiset(b);
    j :| 0 <= j < |b| && b[j] == x;
    assert b == b[..j] + [x] + b[j + 1..];
    assert multiset(b) == multiset(b[..j]) + multiset{x} + multiset(b[j + 1..]);
    assert multiset(b[..j] + b[j + 1..]) == multiset(b[..j]) + multiset(b[j + 1..]);
    assert multiset(a) == multiset(a') + multiset{x};
    calc {
      multiset(a');
      multiset(a) - multiset{x};
      multiset(b) - multiset{x};
      multiset(b[..j]) + multiset(b[j + 1..]);
    }
  }

  /**
   * A wire array that lists both UFP and DFP supports the dual mode, whatever
   * else it lists and in whatever order; with DRP alone it is exactly dual.
   */
  lemma UfpAndDfpIsDual(s: seq<Int8>)
    requires PORT_MODE_UFP in s && PORT_MODE_DFP in s
    ensures Includes(OrFold(s, ToPortMode), MODE_DUAL)
    ensures (forall x :: x in s ==> x == PORT_MODE_UFP || x == PORT_MODE_DFP || x == PORT_MODE_DRP)
            ==> OrFold(s, ToPortMode) == MODE_DUAL
  {
    OrFoldCovers(s, ToPortMode, PORT_MODE_UFP);
    OrFoldCovers(s, ToPortMode, PORT_MODE_DFP);
    IncludesBoth(OrFold(s, ToPortMode), MODE_UFP, MODE_DFP);
    if forall x :: x in s ==> x == PORT_MODE_UFP || x == PORT_MODE_DFP || x == PORT_MODE_DRP {
      OrFoldLeast(s, ToPortMode, MODE_DUAL);
    }
  }
}
