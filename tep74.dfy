/** The `transfer` message body of the Jetton standard (TEP-74):

      transfer#0f8a7ea5 query_id:uint64 amount:(VarUInteger 16)
        destination:MsgAddress response_destination:MsgAddress
        custom_payload:(Maybe ^Cell) forward_ton_amount:(VarUInteger 16)
        forward_payload:(Either Cell ^Cell)

    as a value, its encoding into cell fields, and the decoder that reads it back.
    The wallet's hand-built body is checked against this reference layout. */
module Tep74 {
  import opened Ton

  const TRANSFER_OP: int := 0x0f8a7ea5

  /** `Either Cell ^Cell`: the payload stored inline (bit 0) or in a child cell (bit 1). */
  datatype ForwardPayload = Inline(fields: Cell) | InRef(cell: Cell)

  datatype JettonTransfer = JettonTransfer(
    queryId: int,
    amount: int,
    destination: Address,
    responseDestination: Address,
    customPayload: Option<Cell>,
    forwardTonAmount: int,
    forwardPayload: ForwardPayload)

  function EncodeCustomPayload(p: Option<Cell>): Cell {
    match p
    case None => [Bit(false)]
    case Some(c) => [Bit(true), Ref(c)]
  }

  function EncodeForwardPayload(p: ForwardPayload): Cell {
    match p
    case Inline(f) => [Bit(false)] + f
    case InRef(c) => [Bit(true), Ref(c)]
  }

  function Encode(m: JettonTransfer): Cell {
    [Uint(TRANSFER_OP, 32), Uint(m.queryId, 64), Coins(m.amount), Addr(m.destination), Addr(m.responseDestination)]
    + EncodeCustomPayload(m.customPayload)
    + [Coins(m.forwardTonAmount)]
    + EncodeForwardPayload(m.forwardPayload)
  }

  /** Reads `custom_payload` at the head of `c`; returns it with the number of fields used. */
  function DecodeCustomPayload(c: Cell): (r: Option<(Option<Cell>, nat)>)
    ensures r.Some? ==> r.value.1 <= |c| && c[..r.value.1] == EncodeCustomPayload(r.value.0)
  {
    if |c| >= 1 && c[0] == Bit(false) then Some((None, 1))
    else if |c| >= 2 && c[0] == Bit(true) && c[1].Ref? then Some((Some(c[1].child), 2))
    else None
  }

  /** Reads `forward_payload`, which takes the rest of the cell. */
  function DecodeForwardPayload(c: Cell): (r: Option<ForwardPayload>)
    ensures r.Some? ==> c == EncodeForwardPayload(r.value)
  {
    if |c| >= 1 && c[0] == Bit(false) then Some(Inline(c[1..]))
    else if |c| == 2 && c[0] == Bit(true) && c[1].Ref? then Some(InRef(c[1].child))
    else None
  }

  /** Reads a transfer body; None when `c` does not follow the layout. */
  function Decode(c: Cell): (r: Option<JettonTransfer>)
    ensures r.Some? ==> Encode(r.value) == c
  {
    if |c| < 5 || c[0] != Uint(TRANSFER_OP, 32) || !c[1].Uint? || c[1].bits != 64
       || !c[2].Coins? || !c[3].Addr? || !c[4].Addr?
    then None
    else
      match DecodeCustomPayload(c[5..])
      case None => None
      case Some((custom, k)) =>
        var rest := c[5 + k..];
        if |rest| == 0 || !rest[0].Coins? then None
        else
          match DecodeForwardPayload(rest[1..])
          case None => None
          case Some(fwd) =>
            var m := JettonTransfer(c[1].value, c[2].amount, c[3].address, c[4].address, custom, rest[0].amount, fwd);
            assert Encode(m) == c[..5] + c[5..][..k] + [rest[0]] + rest[1..];
            assert c == c[..5] + c[5..][..k] + [rest[0]] + rest[1..];
            Some(m)
  }

  /** Every transfer message reads back from its encoding. */
  lemma {:induction false} DecodeEncode(m: JettonTransfer)
    ensures Decode(Encode(m)) == Some(m)
  {
    var c := Encode(m);
    var head := [Uint(TRANSFER_OP, 32), Uint(m.queryId, 64), Coins(m.amount), Addr(m.destination), Addr(m.responseDestination)];
    var custom := EncodeCustomPayload(m.customPayload);
    var fwd := EncodeForwardPayload(m.forwardPayload);
    assert c == head + custom + [Coins(m.forwardTonAmount)] + fwd;
    assert c[5..] == custom + [Coins(m.forwardTonAmount)] + fwd;
    assert DecodeCustomPayload(c[5..]) == Some((m.customPayload, |custom|));
    assert c[5 + |custom|..] == [Coins(m.forwardTonAmount)] + fwd;
    assert DecodeForwardPayload(fwd) == Some(m.forwardPayload) by {
      match m.forwardPayload
      case Inline(f) => assert fwd[1..] == f;
      case InRef(p) =>
    }
  }
}
