/** The element IDs of Matroska, as RFC 8794 (section 11.2.1, EBML header) and RFC 9559 (section 5.1) list them. What is
    written in the encodings is written with these; the parser has constants of its own. */
module MatroskaIds {
  const ID_CUES: nat := 0x1C53BB6B
  const ID_CUE_POINT: nat := 0xBB
  const ID_CUE_TIME: nat := 0xB3
  const ID_CUE_TRACK_POSITIONS: nat := 0xB7
  const ID_CUE_TRACK: nat := 0xF7
  const ID_CUE_CLUSTER_POSITION: nat := 0xF1
  const ID_CUE_RELATIVE_POSITION: nat := 0xF0
  const ID_EBML_HEADER: nat := 0x1A45DFA3
  const ID_SEGMENT: nat := 0x18538067
  const ID_SEEK_HEAD: nat := 0x114D9B74
  const ID_SEEK: nat := 0x4DBB
  const ID_SEEK_ID: nat := 0x53AB
  const ID_SEEK_POSITION: nat := 0x53AC
  const ID_INFO: nat := 0x1549A966
  const ID_TIMESTAMP_SCALE: nat := 0x2AD7B1
  const ID_TRACKS: nat := 0x1654AE6B
  const ID_TRACK_ENTRY: nat := 0xAE
  const ID_TRACK_NUMBER: nat := 0xD7
  const ID_TRACK_TYPE: nat := 0x83
}
