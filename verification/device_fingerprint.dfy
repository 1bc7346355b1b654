/**
 * Device identity (utils/deviceFingerprint.ts): a 32-bit string hash
 * rendered in base 36, a device id created once and kept in local storage,
 * and the combined identifier `<device id>_<fingerprint hash>` that the
 * client sends to the entitlement service.
 */
module DeviceFingerprint {
  import opened Optional
  import opened JsText
  import opened Browser

  /** A UTF-16 code unit, what String.prototype.charCodeAt returns. */
  type CodeUnit = c: int | 0 <= c < 0x1_0000

  const TwoTo32: int := 0x1_0000_0000
  const TwoTo31: int := 0x8000_0000

  // ---------------------------------------------------------------------------
  // 32-bit arithmetic as JavaScript's bitwise operators perform it
  // ---------------------------------------------------------------------------

  /** ECMAScript ToInt32: the signed 32-bit integer congruent to `x` modulo 2^32. */
  function ToInt32(x: int): (r: int)
    ensures -TwoTo31 <= r < TwoTo31
    ensures (x - r) % TwoTo32 == 0
  {
    var m := x % TwoTo32;
    if m >= TwoTo31 then m - TwoTo32 else m
  }

  /** ToInt32 only depends on its argument modulo 2^32. */
  lemma ToInt32Congruent(a: int, b: int)
    requires (a - b) % TwoTo32 == 0
    ensures ToInt32(a) == ToInt32(b)
  {
    assert a % TwoTo32 == b % TwoTo32;
  }

  /** One step of simpleHash on a 32-bit hash: hash := int32(31 * hash + code). */
  function HashStep(hash: int, code: CodeUnit): int {
    ToInt32(31 * hash + code)
  }

  /**
   * The loop body as written, `hash = (hash << 5) - hash + char; hash = hash & hash`:
   * `<<` and `&` both go through ToInt32, the subtraction and addition are exact
   * (their operands are far below 2^53), so the step is the 31-multiplier step.
   */
  lemma WrittenStepIsHashStep(hash: int, code: CodeUnit)
    requires -TwoTo31 <= hash < TwoTo31
    ensures ToInt32(ToInt32(hash * 32) - hash + code) == HashStep(hash, code)
  {
    var shifted := ToInt32(hash * 32);
    var k := (hash * 32 - shifted) / TwoTo32;
    assert hash * 32 - shifted == k * TwoTo32;
    assert (shifted - hash + code) - (31 * hash + code) == -k * TwoTo32;
    ToInt32Congruent(shifted - hash + code, 31 * hash + code);
  }

  /** The hash simpleHash has accumulated after reading all of `str`. */
  function FoldHash(str: seq<CodeUnit>): (h: int)
    ensures -TwoTo31 <= h < TwoTo31
  {
    if str == [] then 0 else HashStep(FoldHash(str[..|str| - 1]), str[|str| - 1])
  }

  /** Math.abs on a 32-bit hash. */
  function Abs(x: int): nat {
    if x < 0 then -x else x
  }

  /** What simpleHash returns for `str`: |FoldHash(str)| written in base 36. */
  function HashDigest(str: seq<CodeUnit>): string {
    ToRadix(Abs(FoldHash(str)), 36)
  }

  /**
   * simpleHash: folds the code units of `str` into a 32-bit hash and renders
   * its absolute value in base 36, so the digest is never empty and holds only
   * the characters 0-9 and a-z (no sign), and the empty string hashes to "0".
   */
  method SimpleHash(str: seq<CodeUnit>) returns (digest: string)
    ensures digest == HashDigest(str)
    ensures |digest| >= 1 && forall i :: 0 <= i < |digest| ==> IsDigitIn(digest[i], 36)
    ensures str == [] ==> digest == "0"
  {
    var hash := 0;
    for i := 0 to |str|
      invariant hash == FoldHash(str[..i])
    {
      WrittenStepIsHashStep(hash, str[i]);
      assert str[..i + 1][..i] == str[..i];
      hash := ToInt32(ToInt32(hash * 32) - hash + str[i]);
    }
    assert str[..|str|] == str;
    digest := ToRadix(Abs(hash), 36);
    ToRadixDigits(Abs(hash), 36);
  }

  // ---------------------------------------------------------------------------
  // Device id kept in local storage
  // ---------------------------------------------------------------------------

  const DeviceIdKey: string := "baseline_device_id"

  /**
   * A fresh device id, `${Date.now()}_${random}`; `randomPart` stands for
   * `Math.random().toString(36).substring(2, 15)`.
   */
  function FreshDeviceId(now: nat, randomPart: string): (id: string)
    ensures |id| > |ToRadix(now, 10)| && id[..|ToRadix(now, 10)|] == ToRadix(now, 10)
    ensures id[|ToRadix(now, 10)|] == '_'
    ensures id[|ToRadix(now, 10)| + 1..] == randomPart
  {
    ToRadix(now, 10) + "_" + randomPart
  }

  /** True when storage holds a usable (truthy) device id. */
  predicate HasDeviceId(items: map<string, string>) {
    DeviceIdKey in items && items[DeviceIdKey] != ""
  }

  /** The id getDeviceId returns and the storage it leaves behind. */
  function DeviceIdAfter(items: map<string, string>, now: nat, randomPart: string): (result: (string, map<string, string>))
    ensures result.0 != ""
    ensures result.1 == items[DeviceIdKey := result.0]
    ensures HasDeviceId(items) ==> result.1 == items && result.0 == items[DeviceIdKey]
    ensures !HasDeviceId(items) ==> result.0 == FreshDeviceId(now, randomPart)
  {
    if HasDeviceId(items) then (items[DeviceIdKey], items)
    else var id := FreshDeviceId(now, randomPart); (id, items[DeviceIdKey := id])
  }

  /**
   * getDeviceId is stable: once it has run, a later call (at any time, with
   * any random draw) returns the same id and writes nothing.
   */
  lemma DeviceIdStable(items: map<string, string>, now: nat, randomPart: string, later: nat, laterRandom: string)
    ensures var (id, after) := DeviceIdAfter(items, now, randomPart);
      DeviceIdAfter(after, later, laterRandom) == (id, after)
  {
    var (id, after) := DeviceIdAfter(items, now, randomPart);
    assert HasDeviceId(after);
  }

  /**
   * getDeviceId: returns the stored id when there is one, otherwise stores a
   * fresh one and returns it.
   */
  method GetDeviceId(storage: LocalStorage, now: nat, randomPart: string) returns (id: string)
    modifies storage
    ensures (id, storage.items) == DeviceIdAfter(old(storage.items), now, randomPart)
  {
    var stored := storage.GetItem(DeviceIdKey);
    if stored.Some? && stored.value != "" {
      id := stored.value;
    } else {
      id := FreshDeviceId(now, randomPart);
      storage.SetItem(DeviceIdKey, id);
    }
  }

  /**
   * getFullDeviceIdentifier: the device id, an underscore, and the hash of
   * the browser characteristics. `environment` is the JSON text that
   * generateDeviceFingerprint builds from canvas, navigator, screen and Intl
   * values before hashing it.
   */
  method GetFullDeviceIdentifier(storage: LocalStorage, now: nat, randomPart: string, environment: seq<CodeUnit>)
    returns (identifier: string)
    modifies storage
    ensures storage.items == DeviceIdAfter(old(storage.items), now, randomPart).1
    ensures identifier == storage.items[DeviceIdKey] + "_" + HashDigest(environment)
    ensures |storage.items[DeviceIdKey]| < |identifier|
      && identifier[..|storage.items[DeviceIdKey]|] == storage.items[DeviceIdKey]
  {
    var deviceId := GetDeviceId(storage, now, randomPart);
    var fingerprint := SimpleHash(environment);
    identifier := deviceId + "_" + fingerprint;
  }
}
