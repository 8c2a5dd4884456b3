/** What one side of the trunk sends to the other. */
module Packets {
  import opened Bytes

  /** Not a packet index but the report that there is none; its successor means "no number". */
  const BAD_INDEX: U32 := 0xFFFF_FFFE

  const MAX_CHUNK_SIZE := 800

  datatype Side = ClientSide | ServerSide

  datatype Packet =
    | CreateConnect(id: Id, point: U32, timeout: U32)
    | AckCreate(id: Id)
    | Data(id: Id, index: U32, data: Octets)
    | Release(id: Id, index: U32)
    | AckData(id: Id)
    | Live(id: Id)

  function Other(side: Side): Side {
    if side.ClientSide? then ServerSide else ClientSide
  }
}
