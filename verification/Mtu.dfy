/** The MTU of the bearer: mtu_cb of bluez/gatt-helpers.c and bt_att_set_mtu. */
module Mtu {
  import opened Pdus
  import opened Arith
  import opened Uuids

  const DEFAULT_MTU := 23
  const MTU_RSP := 0x03

  /** bt_att_set_mtu. */
  function SetMtu(mtu: int, value: int): int { if value < DEFAULT_MTU then mtu else value }

  /** mtu_cb. */
  function OnReply(mtu: int, client: int, opcode: int, pdu: seq<int>): int {
    if opcode == ERROR_RSP then mtu
    else if opcode != MTU_RSP || |pdu| != 2 then mtu
    else SetMtu(mtu, Least(client, GetLe16(pdu)))
  }

  /** One exchange: what the client offered and what came back. */
  datatype Exchange = Exchange(client: int, opcode: int, pdu: seq<int>)

  predicate Offer(x: Exchange) { 0 < x.client <= 517 && forall i :: 0 <= i < |x.pdu| ==> IsOctet(x.pdu[i]) }

  function Run(mtu: int, xs: seq<Exchange>): int
    decreases |xs|
  {
    if |xs| == 0 then mtu else Run(OnReply(mtu, xs[0].client, xs[0].opcode, xs[0].pdu), xs[1..])
  }

  /** Whatever servers answer, the MTU stays between 23 and 517. */
  lemma {:induction false} MtuInBounds(mtu: int, xs: seq<Exchange>)
    requires 23 <= mtu <= 517 && forall i :: 0 <= i < |xs| ==> Offer(xs[i])
    ensures 23 <= Run(mtu, xs) <= 517
    decreases |xs|
  {
    if |xs| > 0 {
      assert Offer(xs[0]);
      assert forall i :: 0 <= i < |xs[1..]| ==> xs[1..][i] == xs[i + 1];
      MtuInBounds(OnReply(mtu, xs[0].client, xs[0].opcode, xs[0].pdu), xs[1..]);
    }
  }

  /** An exchange shrinks the MTU exactly if both sides can do 23 and one of them less than
      the present MTU. */
  lemma ShrinksExactly(mtu: int, x: Exchange)
    requires mtu >= 23
    ensures OnReply(mtu, x.client, x.opcode, x.pdu) < mtu
            <==> x.opcode == 0x03 && |x.pdu| == 2 && 23 <= Least(x.client, GetLe16(x.pdu)) < mtu
  {
  }

  /** The one exchange of a connection, with an offer of at least 23, cannot shrink it; and
      then it is what both sides can do if the server can do at least 23. */
  lemma OneExchangeNeverShrinks(x: Exchange)
    requires Offer(x) && x.client >= 23
    ensures var r := Run(23, [x]);
            && 23 <= r <= 517
            && r == if x.opcode == 0x03 && |x.pdu| == 2 && GetLe16(x.pdu) >= 23
                    then Least(x.client, GetLe16(x.pdu)) else 23
  {
    var xs := [x];
    assert xs[1..] == [];
  }

  /** A second exchange in which the server offers less: 100 becomes 50. */
  lemma SecondExchangeShrinks()
    ensures Run(23, [Exchange(517, 0x03, [100, 0]), Exchange(517, 0x03, [50, 0])]) == 50
  {
    var x, y := Exchange(517, 0x03, [100, 0]), Exchange(517, 0x03, [50, 0]);
    assert [x, y][1..] == [y] && [y][1..] == [];
    assert Run(100, [y]) == 50;
  }
}
