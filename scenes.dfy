/**
 * Scene addressing. A scene ordinal n (1-based) is recalled by a Bank Select carrying the bank
 * (called `block` in the driver) followed by a Program Change carrying the sub-index `ss`.
 * There are four banks of 128 programs; ordinals past the fourth bank stay in bank 3.
 */
module Scenes {

  /** One entry of the driver's scene table. */
  datatype Scene = Scene(sceneNumber: int, block: int, ss: int)

  const ScenesPerBank := 128
  const LastBank := 3

  /** The bank of scene n: one bank per 128 scenes, clamped at the fourth. */
  function SceneBank(n: int): (bank: int)
    ensures 0 <= bank <= LastBank
    ensures n >= 1 ==> bank == if (n - 1) / ScenesPerBank < LastBank then (n - 1) / ScenesPerBank else LastBank
  {
    if n <= 128 then 0x00
    else if n <= 256 then 0x01
    else if n <= 384 then 0x02
    else 0x03
  }

  /**
   * The sub-index of scene n, computed as the driver does: subtract 128 (at least once when
   * n > 128, as a do-while) until n is at most 128, then count from 0.
   */
  method SceneSubIndex(sceneNumber: int) returns (ss: int)
    ensures sceneNumber >= 1 ==> 0 <= ss < ScenesPerBank && ss == (sceneNumber - 1) % ScenesPerBank
    ensures sceneNumber <= ScenesPerBank ==> ss == sceneNumber - 1
  {
    var n := sceneNumber;
    ghost var k := 0;
    if n > 128 {
      n := n - 128;
      k := k + 1;
      while n > 128
        invariant n >= 1
        invariant sceneNumber == n + ScenesPerBank * k
        decreases n
      {
        n := n - 128;
        k := k + 1;
      }
    }
    ss := n - 1;
  }

  /** The table entry the driver stores for ordinal n. */
  function Entry(n: int): Scene
  {
    Scene(n, SceneBank(n), (n - 1) % ScenesPerBank)
  }

  /** The whole scene table for `count` scenes, in ordinal order. */
  function SceneTable(count: nat): (t: seq<Scene>)
    ensures |t| == count
    ensures forall k :: 0 <= k < count ==> t[k] == Entry(k + 1)
  {
    seq(count, k requires 0 <= k < count => Entry(k + 1))
  }

  /** Index k of the table holds ordinal k + 1, a bank in 0..3 and a sub-index in 0..127. */
  lemma TableEntry(count: nat, k: int)
    requires 0 <= k < count
    ensures SceneTable(count)[k].sceneNumber == k + 1
    ensures 0 <= SceneTable(count)[k].block <= LastBank
    ensures 0 <= SceneTable(count)[k].ss < ScenesPerBank
    ensures SceneTable(count)[k].ss == k % ScenesPerBank
  {
  }

  /** Banks never decrease as the ordinal grows. */
  lemma BankMonotone(n: int, m: int)
    requires n <= m
    ensures SceneBank(n) <= SceneBank(m)
  {
  }

  /** The ordinal a (bank, sub-index) address selects on the console. */
  function Ordinal(bank: int, ss: int): int
  {
    bank * ScenesPerBank + ss + 1
  }

  /** For the 512 addressable scenes the address identifies the scene: it is a bijection. */
  lemma {:induction false} AddressRoundTrip(n: int)
    requires 1 <= n <= 4 * ScenesPerBank
    ensures Ordinal(SceneBank(n), Entry(n).ss) == n
  {
    var q := (n - 1) / ScenesPerBank;
    var r := (n - 1) % ScenesPerBank;
    assert n - 1 == q * ScenesPerBank + r;
    assert q <= LastBank;
  }

  /** Past scene 512 the bank is clamped, so scene n is given the address of scene n - 128. */
  lemma ClampedAddressesRepeat(n: int)
    requires n > 4 * ScenesPerBank
    ensures Entry(n).block == Entry(n - ScenesPerBank).block == LastBank
    ensures Entry(n).ss == Entry(n - ScenesPerBank).ss
  {
    assert (n - 1) % ScenesPerBank == (n - 1 - ScenesPerBank) % ScenesPerBank;
  }
}
