/** The frames and transport parameters of QMux, as values. */
module Frames {
  import opened Basics
  import opened StreamIds

  const DEFAULT_MAX_RECORD_SIZE: nat := 16382
  /** The space a record buffer leaves before its frames, for the Size field. */
  const RECORD_HEADROOM: nat := 8
  /** The largest encoding of a STREAM frame without its data. */
  const STREAM_OVERHEAD: nat := 25
  /** The most stream data that fits in a record of the default size. */
  const MAX_STREAM_DATA: nat := DEFAULT_MAX_RECORD_SIZE - STREAM_OVERHEAD
  /** The largest stream count a peer may declare: 2^60. */
  const MAX_STREAMS: nat := 0x1000_0000_0000_0000

  const FLOW_CONTROL_ERROR: nat := 0x03
  const STREAM_LIMIT_ERROR: nat := 0x04
  const STREAM_STATE_ERROR: nat := 0x05
  const FINAL_SIZE_ERROR: nat := 0x06
  const FRAME_ENCODING_ERROR: nat := 0x07
  const TRANSPORT_PARAMETER_ERROR: nat := 0x08
  const PROTOCOL_VIOLATION: nat := 0x0a

  datatype Parameters = Parameters(
    maxIdleTimeout: nat,
    initialMaxData: nat,
    initialMaxStreamDataBidiLocal: nat,
    initialMaxStreamDataBidiRemote: nat,
    initialMaxStreamDataUni: nat,
    initialMaxStreamsBidi: nat,
    initialMaxStreamsUni: nat,
    maxDatagramFrameSize: nat,
    maxRecordSize: nat)

  /** What a parameter that is absent stands for; a zero field is not sent. */
  const NO_PARAMETERS := Parameters(0, 0, 0, 0, 0, 0, 0, 0, 0)

  datatype Frame =
    | ResetStream(id: StreamId, code: nat, finalSize: nat)
    | StopSending(id: StreamId, code: nat)
    | StreamData(id: StreamId, offset: nat, data: seq<byte>, fin: bool)
    | MaxData(max: nat)
    | MaxStreamData(id: StreamId, max: nat)
    | MaxStreams(dir: Dir, max: nat)
    | Blocked
    | ConnectionClose(application: bool, code: nat, frameType: nat, reason: seq<byte>)
    | Datagram(data: seq<byte>)
    | Ping(response: bool, sequence: nat)
    | TransportParameters(params: Parameters)

  /** The frame the peer parses from an encoded f: max_record_size 0 stands for the default. */
  function Received(f: Frame): Frame {
    match f
    case TransportParameters(p) =>
      if p.maxRecordSize == 0 then TransportParameters(p.(maxRecordSize := DEFAULT_MAX_RECORD_SIZE)) else f
    case _ => f
  }
}
