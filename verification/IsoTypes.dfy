/** Box types, as ISO/IEC 14496-12, 14496-14 and 14496-15 list them. What reads boxes uses these; what writes them has
    constants of its own. */
module IsoTypes {
  import opened Bytes

  const ISO_FTYP: U32 := 0x66747970
  const ISO_STYP: U32 := 0x73747970
  const ISO_SIDX: U32 := 0x73696478
  const ISO_MOOF: U32 := 0x6D6F6F66
  const ISO_MFHD: U32 := 0x6D666864
  const ISO_TRAF: U32 := 0x74726166
  const ISO_TFHD: U32 := 0x74666864
  const ISO_TFDT: U32 := 0x74666474
  const ISO_TRUN: U32 := 0x7472756E
  const ISO_MDAT: U32 := 0x6D646174
  const ISO_MOOV: U32 := 0x6D6F6F76
  const ISO_MVHD: U32 := 0x6D766864
  const ISO_MVEX: U32 := 0x6D766578
  const ISO_TREX: U32 := 0x74726578
  const ISO_TRAK: U32 := 0x7472616B
  const ISO_TKHD: U32 := 0x746B6864
  const ISO_EDTS: U32 := 0x65647473
  const ISO_ELST: U32 := 0x656C7374
  const ISO_MDIA: U32 := 0x6D646961
  const ISO_MDHD: U32 := 0x6D646864
  const ISO_HDLR: U32 := 0x68646C72
  const ISO_MINF: U32 := 0x6D696E66
  const ISO_VMHD: U32 := 0x766D6864
  const ISO_SMHD: U32 := 0x736D6864
  const ISO_DINF: U32 := 0x64696E66
  const ISO_DREF: U32 := 0x64726566
  const ISO_URL_: U32 := 0x75726C20
  const ISO_STBL: U32 := 0x7374626C
  const ISO_STSD: U32 := 0x73747364
  const ISO_STTS: U32 := 0x73747473
  const ISO_STSC: U32 := 0x73747363
  const ISO_STSZ: U32 := 0x7374737A
  const ISO_STCO: U32 := 0x7374636F
  const ISO_AVC1: U32 := 0x61766331
  const ISO_HEV1: U32 := 0x68657631
  const ISO_MP4A: U32 := 0x6D703461
  const ISO_AVCC: U32 := 0x61766343
  const ISO_HVCC: U32 := 0x68766343
  const ISO_ESDS: U32 := 0x65736473
}
