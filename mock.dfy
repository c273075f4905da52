/** The in-memory device the server is exercised against: a byte sink that never fails. */
module Mock {
  import opened Common
  import opened DevicePort

  class MockAdapter {
    var open: bool
    /** Every byte written, in order. */
    var writeData: seq<byte>

    constructor ()
      ensures !open && writeData == []
    {
      open := false;
      writeData := [];
    }

    method Open() returns (err: Option<PortError>)
      modifies this
      ensures open && err.None? && writeData == old(writeData)
    {
      open := true;
      err := None;
    }

    method Write(data: seq<byte>) returns (n: nat, err: Option<PortError>)
      modifies this
      ensures writeData == old(writeData) + data && open == old(open)
      ensures n == |data| && err.None?
    {
      writeData := writeData + data;
      n := |data|;
      err := None;
    }

    /** Reading never delivers anything and never fails. */
    method Read(buf: array<byte>) returns (n: nat, err: Option<PortError>)
      ensures n == 0 && err.None?
    {
      n := 0;
      err := None;
    }

    method Close() returns (err: Option<PortError>)
      modifies this
      ensures !open && err.None? && writeData == old(writeData)
    {
      open := false;
      err := None;
    }

    method IsOpen() returns (b: bool)
      ensures b == open
    {
      b := open;
    }
  }
}
