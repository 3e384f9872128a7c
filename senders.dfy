/** The packing of a block's transaction senders into one byte buffer for the
    reply of the `Block` call: 20 bytes per sender, read back by the receiving
    side as the i-th 20-byte slice for the i-th transaction. */
module Senders {
  import opened Common

  /** The senders' addresses laid end to end. */
  function Concat(senders: seq<Address>): (r: seq<byte>)
    ensures |r| == 20 * |senders|
  {
    if senders == [] then [] else Concat(senders[..|senders| - 1]) + senders[|senders| - 1]
  }

  /** Slot `i` of the concatenation is the `i`-th sender. */
  lemma {:induction false} ConcatSlot(senders: seq<Address>, i: nat)
    requires i < |senders|
    ensures Concat(senders)[20 * i .. 20 * i + 20] == senders[i]
  {
    var init := senders[..|senders| - 1];
    if i < |init| {
      ConcatSlot(init, i);
      assert Concat(senders)[20 * i .. 20 * i + 20] == Concat(init)[20 * i .. 20 * i + 20];
    } else {
      assert Concat(senders)[20 * i ..] == senders[i];
    }
  }

  /** The address a reader takes from slot `i` of a packed buffer. */
  function SenderAt(buf: seq<byte>, i: nat): (a: Address)
    requires 20 * i + 20 <= |buf|
  {
    buf[20 * i .. 20 * i + 20]
  }

  /** The buffer the loop builds as written: `make` already yields `20*n`
      zero bytes and the loop appends after them. */
  function PackedAsWritten(senders: seq<Address>): seq<byte>
  {
    Zeros(20 * |senders|) + Concat(senders)
  }

  /** The layout of the buffer as written: twice as long as intended, its
      first half zero, and the senders in order after it. */
  lemma {:induction false} PackedAsWrittenLayout(senders: seq<Address>)
    ensures |PackedAsWritten(senders)| == 40 * |senders|
    ensures forall k :: 0 <= k < 20 * |senders| ==> PackedAsWritten(senders)[k] == 0
    ensures forall i :: 0 <= i < |senders| ==> SenderAt(PackedAsWritten(senders), |senders| + i) == senders[i]
  {
    var n := |senders|;
    var buf := PackedAsWritten(senders);
    forall i | 0 <= i < n
      ensures SenderAt(buf, n + i) == senders[i]
    {
      assert buf[20 * (n + i) .. 20 * (n + i) + 20] == Concat(senders)[20 * i .. 20 * i + 20];
      ConcatSlot(senders, i);
    }
  }

  /** The senders loop of `Block` as written: start from `20*n` zero bytes and
      append each sender. */
  method PackSenders(senders: seq<Address>) returns (buf: seq<byte>)
    ensures buf == PackedAsWritten(senders)
    ensures |buf| == 40 * |senders|
  {
    var n := |senders|;
    var zeros := Zeros(20 * n);
    buf := zeros;
    for i := 0 to n
      invariant buf == zeros + Concat(senders[..i])
    {
      ConcatSnoc(senders, i);
      buf := buf + senders[i];
    }
    assert senders[..n] == senders;
  }

  /** Appending one more sender appends its 20 bytes. */
  lemma {:induction false} ConcatSnoc(senders: seq<Address>, i: nat)
    requires i < |senders|
    ensures Concat(senders[..i + 1]) == Concat(senders[..i]) + senders[i]
  {
    assert senders[..i + 1][..i] == senders[..i];
  }

  /** As written, the slot a reader takes for transaction `i` holds the zero
      address, not that transaction's sender, whenever that sender is not the
      zero address. */
  lemma AsWrittenLosesSenders(senders: seq<Address>, i: nat)
    requires i < |senders| && senders[i] != Zeros(20)
    ensures SenderAt(PackedAsWritten(senders), i) == Zeros(20)
    ensures SenderAt(PackedAsWritten(senders), i) != senders[i]
  {
  }

  /** The evidently intended packing: each sender in its own 20-byte slot,
      starting from an empty buffer of capacity `20*n`. */
  method PackSendersIntended(senders: seq<Address>) returns (buf: seq<byte>)
    ensures buf == Concat(senders)
    ensures |buf| == 20 * |senders|
    ensures forall i :: 0 <= i < |senders| ==> SenderAt(buf, i) == senders[i]
  {
    var n := |senders|;
    buf := [];
    for i := 0 to n
      invariant buf == Concat(senders[..i])
    {
      ConcatSnoc(senders, i);
      buf := buf + senders[i];
    }
    assert senders[..n] == senders;
    forall i | 0 <= i < n
      ensures SenderAt(buf, i) == senders[i]
    {
      ConcatSlot(senders, i);
    }
  }
}
