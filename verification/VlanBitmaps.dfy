/** VLAN bitmaps of a bridge port: 128 words of 32 bits, and the bit scan over one word. */
module VlanBitmaps {

  const WORD_BITS: nat := 32
  const WORDS: nat := 128

  /** A uint32_t as its bits, least significant first. */
  type Word = w: seq<bool> | |w| == WORD_BITS witness seq(WORD_BITS, _ => false)

  type Bitmap = b: seq<Word> | |b| == WORDS witness seq(WORDS, _ => seq(WORD_BITS, _ => false))

  function Xor(a: Word, b: Word): Word { seq(WORD_BITS, i requires 0 <= i < WORD_BITS => a[i] != b[i]) }

  function AndNot(a: Word, b: Word): Word { seq(WORD_BITS, i requires 0 <= i < WORD_BITS => a[i] && !b[i]) }

  predicate Bit(b: Bitmap, v: nat) { v < WORDS * WORD_BITS && b[v / WORD_BITS][v % WORD_BITS] }

  /** The VLAN of bit k in word i. */
  function Vid(i: nat, k: nat): nat { i * WORD_BITS + k }

  /** __builtin_ffs: one plus the index of the least significant set bit, 0 if there is none. */
  function Ffs(x: seq<bool>): (r: nat)
    ensures r <= |x|
    ensures r == 0 <==> forall k :: 0 <= k < |x| ==> !x[k]
    ensures r > 0 ==> x[r - 1] && forall k :: 0 <= k < r - 1 ==> !x[k]
  {
    if x == [] then 0
    else if x[0] then 1
    else
      var r := Ffs(x[1..]);
      assert forall k :: 1 <= k < |x| ==> x[k] == x[1..][k - 1];
      if r == 0 then 0 else r + 1
  }

  function FindNextBit(i: int, x: Word): int {
    if i >= 32 then -1
    else if i < 0 then Ffs(x)
    else
      var j := Ffs(x[i..]);
      if j != 0 then j + i else 0
  }

  /** From bit position `from` on (-1: from the start), the scan finds the next set bit. */
  lemma FindNextBitSpec(i: int, x: Word)
    requires -1 <= i <= WORD_BITS
    ensures var from := if i < 0 then 0 else i;
            var r := FindNextBit(i, x);
            if r > 0 then from < r <= WORD_BITS && x[r - 1] && forall k :: from <= k < r - 1 ==> !x[k]
            else forall k :: from <= k < WORD_BITS ==> !x[k]
  {
  }

  /** VLANs of a port: membership and egress tagging. */
  datatype BrVlan = BrVlan(vlan: Bitmap, untagged: Bitmap)

  datatype Membership = Out | In(tagged: bool)

  function Of(b: BrVlan, i: nat, k: nat): Membership
    requires i < WORDS && k < WORD_BITS
  {
    if b.vlan[i][k] then In(!b.untagged[i][k]) else Out
  }

  predicate Changed(a: BrVlan, b: BrVlan, i: nat, k: nat)
    requires i < WORDS && k < WORD_BITS
  {
    a.vlan[i][k] != b.vlan[i][k] || a.untagged[i][k] != b.untagged[i][k]
  }

  /** VLAN 0 is in no bitmap. */
  predicate NoVidZero(b: BrVlan) {
    !b.vlan[0][0] && !b.untagged[0][0]
  }
}
