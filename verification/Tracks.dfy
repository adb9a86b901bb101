/** The tracks of a presentation (src/Fmp4Writer.h). */
module Tracks {
  import opened Bytes
  import opened Wrappers

  datatype VideoCodec = H264 | HEVC | OtherVideo

  datatype AudioCodec = AAC | OtherAudio

  /** Codec parameters; `Neither` also stands for a track without any. */
  datatype CodecParameters =
    | Video(videoCodec: VideoCodec, width: int, height: int, extradata: seq<Byte>)
    | Audio(audioCodec: AudioCodec, channels: int, sampleRate: int, bitRate: int, extradata: seq<Byte>)
    | Neither

  datatype Track = Track(trackId: U32, timescale: U32, codec: CodecParameters,
                         language: Option<seq<Byte>>, initialPadding: I64)
}
