/** The client's globals and the handlers that write them in place. */
module SignalHandlers {
  import opened SignalBits

  class ClientGlobals {
    var activeData: array<bv8>
    var activeBit: nat
    var serverReady: bool

    constructor (data: array<bv8>)
      ensures activeData == data && activeBit == 0 && !serverReady
    {
      activeData, activeBit, serverReady := data, 0, false;
    }

    method RecieveWaitHandler()
      modifies this`serverReady
      ensures serverReady
    {
      serverReady := true;
    }

    method Recieve0Handler()
      requires activeBit < BitCount(activeData.Length)
      modifies this`activeBit, this`serverReady, activeData
      ensures activeData[..] == PutBit(old(activeData[..]), old(activeBit), false)
      ensures activeBit == old(activeBit) + 1 && serverReady
    {
      var writeByte := ByteOf(activeBit);
      var writeBit := PlaceOf(activeBit);
      activeData[writeByte] := activeData[writeByte] & (0xFF ^ Mask(writeBit));
      activeBit := activeBit + 1;
      serverReady := true;
    }

    method Recieve1Handler()
      requires activeBit < BitCount(activeData.Length)
      modifies this`activeBit, this`serverReady, activeData
      ensures activeData[..] == PutBit(old(activeData[..]), old(activeBit), true)
      ensures activeBit == old(activeBit) + 1 && serverReady
    {
      var writeByte := ByteOf(activeBit);
      var writeBit := PlaceOf(activeBit);
      activeData[writeByte] := activeData[writeByte] | Mask(writeBit);
      activeBit := activeBit + 1;
      serverReady := true;
    }
  }

  /** One chunk end to end: the handlers, run for the bits of `src` in order, overwrite the first
      `n` bytes of the receive buffer with those of `src` and leave the rest alone. */
  method ReceiveChunk(g: ClientGlobals, src: seq<bv8>, n: nat)
    requires n <= |src| && n <= g.activeData.Length
    modifies g, g.activeData
    ensures g.activeData == old(g.activeData)
    ensures g.activeData[..] == src[..n] + old(g.activeData[..])[n..]
  {
    var data := g.activeData;
    ghost var was := data[..];
    g.activeBit := 0;
    while g.activeBit < BitCount(n)
      invariant g.activeData == data && data.Length == |was| && g.activeBit <= BitCount(n)
      invariant SameBits(data[..], src, g.activeBit)
      invariant forall i :: n <= i < |was| ==> data[i] == was[i]
    {
      ReceiveNextBit(data[..], src, g.activeBit);
      if BitAt(src, g.activeBit) {
        g.Recieve1Handler();
      } else {
        g.Recieve0Handler();
      }
    }
    SameBitsSameBytes(data[..], src, n);
    assert data[..] == data[..][..n] + data[..][n..];
  }
}
