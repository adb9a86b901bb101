# Verified model of the HLS packager

The packager turns a Matroska file into HLS segments on request. This project models, in Dafny, everything that
happens to bytes, times and indices on the way, and proves what a player relies on. Calls into FFmpeg are abstract
machines; the packet stream, the file's bytes and the codec are parameters.

The chain, and the modules that hold it:

1. **Cues.** `Ebml`, `Cues` and `MkvHeader` are the parser; `EbmlEncoding`, `CuesEncoding` and `MkvHeaderEncoding`
   write arbitrary legal trees (any widths, any order, unknown elements in between, repeated elements) and prove that
   the parser finds exactly their meaning, and how it degrades on a truncated buffer. They take the element IDs from
   `MatroskaIds`, which holds those of RFC 9559 and RFC 8794; `LiteralBytes` gives two examples byte by byte.
2. **Boundaries.** `Keyframes`, `HlsManifest`, `Demux`: which keyframes become segment bounds, how long segments get,
   what the manifest announces, the index that is read once, and where a seek goes. `CueIndex` follows a file's bytes to
   its index.
3. **Building a segment.** `Aac` is the queue between decoder and encoder, `Sessions` the class that reads packets,
   selects video, merges audio frames and keeps two caches. Its methods are proved against the functions of
   `SessionSpec`; `AudioSchedule`, `Coverage`, `AudioContent`, `Tiling`, `Timeline`, `Eviction` and `History` prove
   what those functions promise over whole runs, in terms of packets, samples and times alone.
4. **Writing.** `BoxBuilding` is the append buffer whose sizes are patched in place; `Fmp4Writer` and `InitWriter`
   write media and init segments through it and are proved to leave exactly the boxes of `SegmentLayout` and
   `InitLayout`. `SegmentReader` and `InitReader` are readers written from ISO/IEC 14496-12, with the box types of
   `IsoTypes`; `SegmentRoundTrip` and `InitRoundTrip` prove that they recover every input. `GoldenInit` and
   `GoldenSegment` prove, with the fields of `FieldBytes`, that for the inputs of the repository's tests the segments are
   the files test_init.mp4 and test_seg.mp4, byte for byte.
5. **End to end.** `EndToEnd` puts all of it together: for any file whose cues describe its stream, and whatever
   requests came before each segment, the segments read back one after another show exactly the file's video packets
   between the first and the last boundary, each with its own times and bytes, and audio without a gap, each frame
   made from the stream's own samples. `FromFile` starts from the file's bytes; `InitMatches` joins the segments to the
   init segment, track by track.
6. **Examples.** `SmallFile` writes a file for any list of cue times, and `Possible` gives it a stream with gapless audio
   and an encoder that meet all that playback of video and audio takes for granted. `Failures` holds the streams on
   which a promise breaks.

Four promises of the code turn out to hold only under a condition. Each is stated with its exact condition and a
concrete input that breaks it:

- The keyframe filter keeps the first keyframe in each ten seconds, unless the stream's first keyframe lies past the
  target and the second one in the same interval (`Keyframes.KeepsWantedExactly`, `Keyframes.LateFirstKeyframe`).
- Preroll and lookahead leave room for ten frames inside the encoder, not more, in a segment whose audio is supplied
  without a gap, and in the first segment for fewer if the priming is more than one frame: eight for one of 2112
  samples. Every 1024 samples lost to late packets or rounding cost about one more (`Coverage.FirstMarginExact`,
  `Coverage.LaterMarginExact`, `Failures.ElevenFramesUncovered`).
- "At most fifty cached segments" fails when larger indices fill the cache (`Eviction.WithinLimit`,
  `History.DescendingRequests`, `Failures.FiftyOneStay`).
- The AAC configuration in an init segment can be read back if and only if it has at most 95 bytes
  (`InitRoundTrip.ConfigReadsBackIff`).

The claim of the repository's own README.md (lines 74-77) that fetching a segment again gives identical bytes holds
for the writer by itself. For a session, whose frame cache outlives a build, it holds after every history if the
build's own frames cover the segment (`History.HistoryIndependence`), and in general if and only if no other segment's
build leaves a frame in the cache that is in the segment's range and that its own build lacks
(`History.HistoryIndependentIff`). `Failures.RepliesDiffer` is a file of two segments, a stream and two histories after
which the replies differ.

Where the code and its documentation disagree, the model follows the code: the last boundary is the last cue kept,
not the end of the file (src/Demuxer.h lines 43-45); the earliest presentation time of an index is the first sample's;
`is_keyframe` is never written, so that a reader finds only the first sample of a run marked; with several tracks only
the last index is anchored at the moof; and the video `tfdt` is the first sample's decode time, not computed from the
segment's start (lines 82-83 of the repository's README.md).

One assumption stands behind every statement about audio: that `Reset` returns decoder, resampler and encoder to where
they started, so that what they give is a function of what they were given since. src/AacTranscoder.h lines 44-47 say
that the encoder cannot be flushed cleanly.

Four-character codes are represented by their big-endian values. Casts and fixed widths are written out
(`Bytes.ToU32`, `ToI64`, ...); the arithmetic of the source that is not a cast is on unbounded integers.

## Model

| member | source | states |
|---|---|---|
| BoxBuilding.BoxBuilder.U16 | src/BoxBuilder.h:25 | appends two big-endian bytes |
| BoxBuilding.BoxBuilder.U24 | src/BoxBuilder.h:26-30 | appends three big-endian bytes |
| BoxBuilding.BoxBuilder.U32 | src/BoxBuilder.h:31-36 | appends four big-endian bytes |
| BoxBuilding.BoxBuilder.U64 | src/BoxBuilder.h:37-40 | two 32-bit halves are the eight-byte big-endian field |
| BoxBuilding.BoxBuilder.S32 | src/BoxBuilder.h:41 | a signed value is appended as its two's complement |
| BoxBuilding.BoxBuilder.S64 | src/BoxBuilder.h:42 | a signed value is appended as its two's complement |
| BoxBuilding.BoxBuilder.Append | src/BoxBuilder.h:44-47 | appends the bytes, nothing for none |
| BoxBuilding.BoxBuilder.BeginBox | src/BoxBuilder.h:60-65 | returns where the box starts; appends a placeholder and the type |
| BoxBuilding.BoxBuilder.BeginFullBox | src/BoxBuilder.h:68-73 | the same, followed by version and flags |
| BoxBuilding.BoxBuilder.EndBox | src/BoxBuilder.h:76-82 | replaces the four bytes at the start by the size since, and nothing else |
| BoxBuilding.BoxBuilder.Patch32 | src/BoxBuilder.h:85-90 | replaces four bytes by a field, and nothing else |
| BoxBuilding.BoxBuilder.Take | src/BoxBuilder.h:95 | hands over the bytes and leaves the buffer empty |
| BoxBuilding.Closed | src/BoxBuilder.h:60-82 | Begin, fields, children, End leave exactly the box, and every byte before it as it was |
| BoxBuilding.PatchedInside | src/BoxBuilder.h:85-90 | a patch inside a part of the buffer commutes with what stands before and after it |
| Bytes.UnBEofBE | src/BoxBuilder.h:24-42 | reading a big-endian field gives the value that was written, for every value that fits |
| Bytes.BEofUnBE | src/BoxBuilder.h:24-42 | writing the value read from any byte string gives the byte string back |
| Bytes.BESplit4 | src/BoxBuilder.h:37-40 | the low word of a wide field is a 32-bit field |
| Bytes.SignedField64 | src/BoxBuilder.h:42 | a signed 64-bit field reads back as the value, negative ones included |
| BoxTree.ParseEncode | src/Fmp4Writer.cpp:525-645 | a reader of boxes finds every well-formed tree again from its bytes |
| BoxTree.EncodeParse | src/Fmp4Writer.cpp:525-645 | whatever reads as boxes is exactly the bytes of those boxes: sizes tile the buffer at every depth |
| Fmp4Writer.WriteStyp | src/Fmp4Writer.cpp:431-438 | appends the bytes of the segment type box |
| Fmp4Writer.WriteSidx | src/Fmp4Writer.cpp:446-462 | appends an index with a placeholder and says where the placeholder stands |
| Fmp4Writer.WriteMfhd | src/Fmp4Writer.cpp:466-470 | appends the fragment header |
| Fmp4Writer.WriteTfhd | src/Fmp4Writer.cpp:475-479 | appends the track fragment header |
| Fmp4Writer.WriteTfdt | src/Fmp4Writer.cpp:483-487 | appends the decode time as a signed 64-bit field |
| Fmp4Writer.WriteTrun | src/Fmp4Writer.cpp:504-519 | appends a run with one entry for each sample, and says where the data offset stands |
| Fmp4Writer.WriteSidxs | src/Fmp4Writer.cpp:556-578 | one index a track, with the first sample's presentation time and the summed durations; where each size stands |
| Fmp4Writer.WriteTraf | src/Fmp4Writer.cpp:592-602 | a track fragment; 0 stands for no run |
| Fmp4Writer.WriteMoof | src/Fmp4Writer.cpp:582-605 | the whole fragment with placeholders, and where each data offset stands |
| Fmp4Writer.WriteMdat | src/Fmp4Writer.cpp:608-624 | all payloads in order, and where each track's starts, counted from the moof |
| Fmp4Writer.PatchDataOffsets | src/Fmp4Writer.cpp:628-632 | sets the data offset of every track that has a run, and changes no other byte |
| Fmp4Writer.PatchSizes | src/Fmp4Writer.cpp:637-641 | sets the referenced size of every index, and changes no other byte |
| Fmp4Writer.WriteBoxes | src/Fmp4Writer.cpp:549-625 | what all phases leave before any forward reference is patched, with all offsets |
| Fmp4Writer.BuildSegment | src/Fmp4Writer.cpp:536-645 | the patched buffer is the bytes of the tree of boxes, forward references included; mismatched lists are refused |
| Fmp4Writer.NoRun | src/Fmp4Writer.cpp:596-600 | 0 is a safe sentinel: no data offset stands at byte 0 |
| SegmentLayout.PatchDataOffset | src/Fmp4Writer.cpp:628-632 | patching there changes the data offset of that track and no other byte of the segment |
| SegmentLayout.PatchReferencedSize | src/Fmp4Writer.cpp:637-641 | patching there changes the size in that index and no other byte of the segment |
| SegmentLayout.MoofSizeFixed | src/Fmp4Writer.cpp:582-605 | the size of the moof does not depend on the values of its forward references |
| SegmentRoundTrip.SegmentRoundTrip | src/Fmp4Writer.cpp:536-645 | for all tracks and samples, a standard reader finds the sequence number, every index, track id, decode time, duration, offset and payload byte |
| SegmentRoundTrip.SegmentInjective | src/Fmp4Writer.cpp:536-645 | segments with the same bytes have the same inputs, apart from sync flags and the decode times of samples after the first, which a segment does not hold |
| SegmentRoundTrip.OnlyLastReferenceIsAnchored | src/Fmp4Writer.cpp:634-641 | every index refers to as many bytes as moof and mdat have; only the last one's reference ends where the segment ends |
| SegmentRoundTrip.AllPlaced | src/Fmp4Writer.cpp:612-632 | every track's payload stands where its data offset says, counted from the moof |
| SegmentRoundTrip.ReadTfdtOf | src/Fmp4Writer.cpp:483-487 | decode times read back when taken as signed |
| SegmentRoundTrip.ReadSamplesOf | src/Fmp4Writer.cpp:512-516 | all entries of a run read back with their payloads, by induction over the samples |
| SegmentRoundTrip.SegmentTypes | src/Fmp4Writer.cpp:431-438 | the types and brands that a segment starts with, as the standard registers them |
| GoldenSegment.SegmentOfTest | tests/test_segment_roundtrip.cpp:72-141 | for the samples of that test, the media segment is the 2076 bytes that follow the init segment in test_seg.mp4 |
| InitWriter.WriteFtyp | src/Fmp4Writer.cpp:87-95 | appends exactly the bytes of the box: file type |
| InitWriter.WriteMvhd | src/Fmp4Writer.cpp:99-113 | appends exactly the bytes of the box: movie header with the next track id |
| InitWriter.WriteTrex | src/Fmp4Writer.cpp:120-128 | appends exactly the bytes of the box: defaults of a track: video samples are not sync samples |
| InitWriter.WriteTkhd | src/Fmp4Writer.cpp:132-154 | appends exactly the bytes of the box: track header with id and picture size |
| InitWriter.WriteMdhd | src/Fmp4Writer.cpp:158-167 | appends exactly the bytes of the box: media header with timescale and packed language |
| InitWriter.WriteHdlr | src/Fmp4Writer.cpp:171-180 | appends exactly the bytes of the box: handler by kind of track |
| InitWriter.WriteVmhd | src/Fmp4Writer.cpp:184-189 | appends exactly the bytes of the box: video media header |
| InitWriter.WriteSmhd | src/Fmp4Writer.cpp:191-196 | appends exactly the bytes of the box: sound media header |
| InitWriter.WriteDinf | src/Fmp4Writer.cpp:200-213 | appends exactly the bytes of the box: data information: nested boxes, the data is in the same file |
| InitWriter.WriteCodecConfig | src/Fmp4Writer.cpp:217-225 | appends exactly the bytes of the box: the decoder configuration, if there is one to write |
| InitWriter.WriteEsds | src/Fmp4Writer.cpp:240-267 | appends exactly the bytes of the box: the nested descriptors of an AAC configuration, lengths cut to one byte each |
| InitWriter.WriteVideoSampleEntry | src/Fmp4Writer.cpp:271-295 | appends exactly the bytes of the box: the visual sample entry with its configuration |
| InitWriter.WriteAudioSampleEntry | src/Fmp4Writer.cpp:297-316 | appends exactly the bytes of the box: the sound sample entry with its descriptors |
| InitWriter.WriteStsd | src/Fmp4Writer.cpp:318-324 | appends exactly the bytes of the box: the sample description; no entry for a track that is neither video nor audio |
| InitWriter.WriteStbl | src/Fmp4Writer.cpp:328-356 | appends exactly the bytes of the box: the sample table |
| InitWriter.WriteMinf | src/Fmp4Writer.cpp:360-367 | appends exactly the bytes of the box: the media information |
| InitWriter.WriteMdia | src/Fmp4Writer.cpp:371-377 | appends exactly the bytes of the box: the media box |
| InitWriter.WriteEdtsForPriming | src/Fmp4Writer.cpp:381-396 | appends exactly the bytes of the box: an edit that skips the priming, if there is any |
| InitWriter.WriteTrak | src/Fmp4Writer.cpp:400-406 | appends exactly the bytes of the box: the track box |
| InitWriter.WriteMoov | src/Fmp4Writer.cpp:410-426 | appends exactly the bytes of the box: the movie box of all tracks |
| InitWriter.PackLanguage | src/Fmp4Writer.cpp:33-43 | the low five bits of three letters; "und" for fewer |
| InitWriter.BuildInit | src/Fmp4Writer.cpp:525-532 | the patched buffer is the bytes of the tree of boxes; no tracks are refused |
| InitWriter.EndTree | src/BoxBuilder.h:76-82 | End after fields and children leaves exactly the box |
| InitRoundTrip.InitRoundTrip | src/Fmp4Writer.cpp:525-532 | an init segment parses as its tree, and a standard reader finds next track id, defaults and every track's parameters; it refuses if and only if some track is neither video nor audio |
| InitRoundTrip.ShapedInit | src/Fmp4Writer.cpp:410-426 | every box of an init segment is one that the format can express |
| InitRoundTrip.TrakReads | src/Fmp4Writer.cpp:400-406 | id, picture size, priming, timescale, language, handler and sample entry of any track read back |
| InitRoundTrip.EsdsReads | src/Fmp4Writer.cpp:240-267 | what a reader makes of the descriptors for every length of the configuration: its first n mod 256 bytes if those are at most 95, and else nothing |
| InitRoundTrip.ConfigReadsBackIff | src/Fmp4Writer.cpp:240-267 | the configuration reads back if and only if it has at most 95 bytes |
| InitRoundTrip.LanguageReads | src/Fmp4Writer.cpp:33-43 | three letters read back as small letters |
| InitRoundTrip.NoLanguage | src/Fmp4Writer.cpp:33-43 | without three letters the language reads back as "und" |
| InitRoundTrip.LargestId | src/Fmp4Writer.cpp:410-426 | the next track id is one more than the largest there is |
| InitRoundTrip.InitBoxTypes | src/Fmp4Writer.cpp:87-95 | the types that no reader looks for, and the brands, as the standards register them; the data is in the same file |
| GoldenInit.InitOfTest | tests/test_init_roundtrip.cpp:81-104 | for the track of that test, the init segment is the 679 bytes of test_init.mp4 |
| GoldenInit.SoundHeadBytes | src/Fmp4Writer.cpp:120-154 | the defaults of an audio track and its track header, byte by byte: no sample flags, that is, sync samples |
| GoldenInit.SoundTrakBytes | src/Fmp4Writer.cpp:400-406 | the track box of a stereo AAC track with priming, byte by byte |
| Ebml.EbmlReadId | src/EbmlParser.h:32-55 | the ID with its marker bit and its width; 0 when there is none |
| Ebml.EbmlReadSize | src/EbmlParser.h:59-85 | the size without its marker bit and its width; 0 when there is none |
| Ebml.EbmlReadUint | src/EbmlParser.h:88-94 | the big-endian value of at most eight bytes |
| Ebml.EbmlScanChildren | src/EbmlParser.h:110-143 | the visitor's calls, in order, are those of the scan |
| Ebml.ScanPrefix | src/EbmlParser.h:110-143 | scanning a prefix of any buffer makes the first calls of the full scan, all the same but for the last one's data, which may be shortened |
| EbmlEncoding.ReadIdOf | src/EbmlParser.h:32-55 | every legal ID reads back, whatever follows |
| EbmlEncoding.ReadSizeOf | src/EbmlParser.h:59-85 | every size reads back in every width that holds it, whatever follows |
| EbmlEncoding.ScanOf | src/EbmlParser.h:110-143 | scanning encoded elements visits each once, in order, with exactly its data and offset, whatever follows |
| EbmlEncoding.ScanOfAll | src/EbmlParser.h:110-143 | and visits nothing else when nothing follows |
| Cues.ParsePositions | src/EbmlParser.h:289-302 | the last track, cluster and relative position among the children |
| Cues.ParsePoint | src/EbmlParser.h:277-311 | the last time, and the last positions of the video track |
| Cues.ParseCuesData | src/EbmlParser.h:251-327 | the entries of the buffer, nothing for a buffer without a Cues header |
| CuesEncoding.CuesRoundTrip | src/EbmlParser.h:251-327 | for every legal Cues tree, one entry for each cue point that has a time and the video track, in file order, with scaled time and absolute position; the last of repeated elements wins |
| Cues.TruncatedCues | src/EbmlParser.h:273-324 | on a Cues element cut anywhere the parser finds the entries of the whole element, except perhaps the last one it finds |
| CuesEncoding.TruncatedRoundTrip | src/EbmlParser.h:273-324 | cutting an encoded Cues element loses no entry of a cue point that is still complete |
| MkvHeader.FindSegmentStart | src/EbmlParser.h:338-362 | where the children of the segment start |
| MkvHeader.ParseSeek | src/EbmlParser.h:377-392 | the last id and position of a Seek entry |
| MkvHeader.ParseSeekHead | src/EbmlParser.h:372-416 | the last position given for the Cues |
| MkvHeader.ParseCuesSize | src/EbmlParser.h:398-412 | the size of the Cues element if its header is in the buffer |
| MkvHeader.ParseCuesLocation | src/EbmlParser.h:331-420 | position, size and segment start of the Cues |
| MkvHeader.ParseTrackEntry | src/EbmlParser.h:207-216 | number and type of a track entry |
| MkvHeader.ParseSegmentInfo | src/EbmlParser.h:163-227 | time scale and video track of the header |
| MkvHeaderEncoding.LocationRoundTrip | src/EbmlParser.h:331-420 | for every legal start of a file, the location is the last position that a Seek entry gives for the Cues, from the segment's data on |
| MkvHeaderEncoding.LocatedSize | src/EbmlParser.h:398-412 | the size is that of the whole Cues element when its header is in the buffer |
| MkvHeaderEncoding.InfoRoundTrip | src/EbmlParser.h:163-227 | for every legal start of a file, time scale and video track are the last ones given, or the defaults |
| LiteralBytes.CuesFromBytes | src/EbmlParser.h:229-327 | a Cues element written out byte by byte has the one entry that it says: time 10, cluster, track, relative position |
| LiteralBytes.StartFromBytes | src/EbmlParser.h:163-420 | the start of a file written out byte by byte: where its Cues are, its time scale and its video track |
| Keyframes.FilterKeyframes | src/Demuxer.cpp:14-32 | keeps the first keyframe, each one that passes a multiple of the target that no earlier one passed, and the last |
| Keyframes.KeepsWantedExactly | src/Demuxer.cpp:14-32 | that is: the first, the last, and each one in a later interval than the one before, if and only if the first keyframe lies below the target, or the second in a later interval, or there are fewer than three |
| Keyframes.LateFirstKeyframe | src/Demuxer.cpp:21-27 | a stream whose second keyframe becomes a boundary after two seconds |
| Keyframes.FilteredIncreases | src/Demuxer.cpp:14-32 | boundaries increase strictly, from the first keyframe to the last |
| Keyframes.SegmentLengths | src/Demuxer.cpp:14-32 | with keyframes at most G apart, every segment is shorter than the target and G |
| HlsManifest.SegmentDurations | src/HlsManifest.cpp:10-20 | the duration of each segment in seconds |
| HlsManifest.Generate | src/HlsManifest.cpp:22-31 | the target duration is the least whole number of seconds, at least one, that no segment exceeds; nothing for fewer than two keyframes |
| HlsManifest.TargetDuration | src/HlsManifest.cpp:28-31 | it bounds each rounded duration (RFC 8216, section 4.3.3.1), and is at most the ceiling of any bound on the segments |
| HlsManifest.ManifestOfFiltered | src/HlsManifest.cpp:10-31 | durations of filtered keyframes sum to last minus first; each is below target plus gap, and so is the announced target, rounded up |
| Demux.Demuxer.EnsureCueIndex | src/Demuxer.cpp:82-168 | reads the index once; later calls leave it as it is |
| Demux.Demuxer.KeyframesMs | src/Demuxer.cpp:182-185 | the boundaries are the same function of the file on every call |
| Demux.Demuxer.SeekToMs | src/Demuxer.cpp:187-223 | reading goes on at the packet that SeekGoesTo describes |
| Demux.LatestCue | src/Demuxer.cpp:193-198 | the last of the leading cues at or before the time |
| Demux.LookupFindsLatest | src/Demuxer.cpp:193-198 | with cues in time order that is the latest cue at or before the time |
| Demux.SeekGoesTo | src/Demuxer.cpp:193-221 | a seek goes to the cluster of the last leading cue at or before the time, or, if there is none or it has no position, to where libavformat seeks |
| Demux.SeekGoesToCue | src/Demuxer.cpp:193-221 | with cues in time order: to the cluster of the one cue at or before the time whose successor is later |
| Demux.SeekBeforeCues | src/Demuxer.cpp:216-218 | if every cue is later, to where libavformat seeks |
| Demux.BoundariesOfFile | src/Demuxer.cpp:150-157 | the boundaries of a file: the first cue time, the last, and each in a later ten seconds than the one before, if and only if the first lies below ten seconds, or the second in a later ten, or there are fewer than three |
| CueIndex.EntriesInOrder | src/EbmlParser.h:313-322 | entries of cue points in time order are in time order: scaling keeps the order |
| CueIndex.IndexOfFile | src/Demuxer.cpp:88-162 | from the bytes of a file to its index: the seek head is followed to the Cues, and every entry they mean is found, in order |
| CueIndex.NoIndex | src/Demuxer.cpp:101-110 | a file whose seek head does not place the Cues has no index |
| CueIndex.NoCuesThere | src/Demuxer.cpp:112-131 | nor has one with fewer than 12 bytes, or another element, at that place |
| CueIndex.LargeCues | src/Demuxer.cpp:133-140 | of a Cues element of more than 32 MB the first 32 MB are read |
| Aac.AacTranscoder.Reset | src/AacTranscoder.cpp:69-79 | empties the queues, sets the next time, and returns the codecs to their start |
| Aac.AacTranscoder.Decode | src/AacTranscoder.cpp:81-116 | appends what the decoder yields to both queues, left to left and right to right |
| Aac.AacTranscoder.EncodeUntil | src/AacTranscoder.cpp:118-156 | feeds frames while there are any and none ends past the cutoff; returns the packets they make available |
| AudioSchedule.ScheduleIndependence | src/AacTranscoder.cpp:118-156 | whenever the queue is drained in between, after a last drain the encoder has been fed what a single drain after all packets feeds |
| AudioSchedule.MoreIsIgnored | src/AacTranscoder.cpp:120-121 | once there is enough, packets decoded beyond feed the encoder nothing more |
| AudioSchedule.DrainedIs | src/AacTranscoder.cpp:120-153 | a drain feeds min(queued, up to the cutoff) consecutive frames, and leaves the rest |
| AudioSchedule.EnoughIff | src/AacTranscoder.cpp:120-121 | there is enough if and only if the queue holds every whole frame up to the cutoff |
| AudioSchedule.FloorDiv | src/Session.cpp:26-31 | the quotient rounds down, for negative numbers too |
| AudioSchedule.RegularKeys | src/Session.cpp:285-299 | the frame indices that come out of a regular encoder are exactly those from the first fed less the shift, as many as fed less the delay |
| Sessions.AppendVideoPacket | src/Session.cpp:239-265 | the sample of a packet: a missing time is taken from the other, a negative offset becomes 0, a packet without times is dropped |
| Sessions.FixVideoDurations | src/Session.cpp:267-283 | the durations that DurationsFixed describes, and nothing else changed |
| Sessions.Session.CacheAudioPackets | src/Session.cpp:285-299 | the build's map takes every frame, the session's cache only those it lacks |
| Sessions.Session.DrainAac | src/Session.cpp:301-307 | after a drain both maps hold all that the encoder has given |
| Sessions.Session.ReadLookahead | src/Session.cpp:333-354 | past the boundary, audio is decoded up to the first packet past the lookahead |
| Sessions.Session.ReadAudio | src/Session.cpp:363-372 | an audio packet of the main loop is decoded unless before the preroll, and drained |
| Sessions.Session.ReadPackets | src/Session.cpp:311-381 | video from the first keyframe at or after the start up to the first at or after the end; audio by the same walk |
| Sessions.Session.CollectAudio | src/Session.cpp:385-401 | a frame of the output range comes from the build, or else from the session's cache |
| Sessions.Session.TakeAudio | src/Session.cpp:383-414 | the audio of the segment, and the cache cut to its limit |
| Sessions.Session.EvictFrames | src/Session.cpp:403-413 | drops least frames until the limit is met |
| Sessions.Session.EvictSegments | src/Session.cpp:592-598 | drops least segments until the limit is met, but stops at the new one |
| Sessions.WriteSegment | src/Session.cpp:421-448 | the bytes of the segment whose tracks ReplyHeaded describes, video first |
| Sessions.Session.BuildSegmentLocked | src/Session.cpp:154-601 | new caches and reply are those of one step, for hits, builds and failures alike |
| Sessions.Session.GenerateInitSegment | src/Session.cpp:69-108 | the init segment of the tracks that InitDeclares describes, built once |
| Sessions.Session.GenerateSegment | src/server.cpp:182-198 | a request by index: its bounds are two neighbouring keyframes, and it is refused exactly out of range |
| Tiling.VideoTiles | src/Session.cpp:311-361 | for increasing bounds and reads that start in time, all segments together hold exactly the video packets with a time between first and last cut |
| Tiling.HasVideoIff | src/Session.cpp:311-361 | a segment has video if and only if the first keyframe at or after its start lies before its end |
| Tiling.SeekNeverOvershoots | src/Demuxer.cpp:187-214 | reading for a segment never starts after its first keyframe |
| Tiling.VideoIsFiltered | src/Session.cpp:239-247 | what a build keeps of a part of the stream is its video packets that have a decoding or a presentation time, in order |
| Tiling.ClampNeverFires | src/Session.cpp:181-185 | segments of at least 22 ms are given a whole frame by their bounds |
| Tiling.AudioRangesJoin | src/Session.cpp:181-185 | one segment's frames end where the next one's begin |
| Tiling.AudioTiles | src/Session.cpp:181-185 | over a run, every frame from the priming to the last boundary belongs to exactly one segment |
| Timeline.DecodedTimes | src/Session.cpp:267-283 | base time plus earlier durations, as a reader adds them, is every sample's own decode time |
| Timeline.DurationsFixed | src/Session.cpp:267-283 | each sample lasts to the next, but keeps its own duration where that is not later; of two or more the last lasts as long as the one before; a single one keeps its own, or gets 533 if that is 0; nothing else changes |
| Timeline.TotalReaches | src/Session.cpp:267-283 | at increasing times, the durations of two or more samples sum to the last time plus the last gap, less the first time |
| Timeline.AnnouncedDuration | src/Fmp4Writer.cpp:561-569 | the index announces last time plus last duration minus first time |
| Timeline.SpanReachesNext | src/Session.cpp:277-278 | with a constant interval, the durations of a run of samples reach to one interval after its last |
| Coverage.InterleavingIndependence | src/Session.cpp:309-381 | every frame that the audio packets up to the lookahead fill is fed, the same and at the same time, wherever video, boundary and drains fall; and nothing else once they hold every frame up to the cutoff |
| Coverage.QueueIs | src/AacTranscoder.cpp:81-116 | after a Reset and any packets the queue is what these packets decode to, one after another, channel by channel |
| Coverage.FramesFed | src/Session.cpp:309-381 | a build feeds consecutive frames of what the audio packets decode to, from where it seeks to where it stops, as many as these fill up to the cutoff |
| Coverage.BuiltFrames | src/Session.cpp:285-299 | which frames a build with a regular encoder has, by index, from the samples that it decodes |
| Coverage.CoveredIff | src/Session.cpp:385-393 | the range is covered if and only if delay and shift fit the margin that the decoded samples leave |
| Coverage.GaplessSupplies | src/Session.cpp:333-372 | gapless packets, their times rounded to milliseconds, supply all samples from the first one on to the first one past the lookahead, but for the rounding |
| Coverage.HeldIsSupplied | src/Session.cpp:333-354 | a build whose audio is supplied decodes all samples up to the lookahead, but for those lost |
| Coverage.FirstMarginHolds | src/Session.cpp:175-201 | the margin of a first segment, from its priming and the samples lost |
| Coverage.LaterMarginHolds | src/Session.cpp:175-201 | the margin of a later segment, from its decode start and the samples lost |
| Coverage.FirstMarginExact | src/Session.cpp:175-201 | a number of frames is safe in every first segment if and only if it is at most that margin |
| Coverage.LaterMarginExact | src/Session.cpp:175-201 | a number of frames is safe in every later segment if and only if it is at most the least margin, ten when nothing is lost |
| Coverage.SafeForAll | src/Session.cpp:175-201 | with a priming of at most one frame and a start within the preroll, ten frames are safe in every segment, and one fewer for each 1024 samples lost beyond 784 |
| Coverage.PrerollSuffices | src/Session.cpp:175-201 | if the audio that is read is supplied, a segment of at least 22 ms whose encoder holds back no more frames than are safe has no fallback and no gap |
| Coverage.AudioTimesJoin | src/Session.cpp:385-443 | covered segments join in time: base time plus 1024 for each frame is the next base time |
| AudioContent.FrameFed | src/Session.cpp:175-201 | frame j that a build feeds is the j-th 1024 samples of that, at 1024 j from the priming or the first whole frame; it is fed if and only if the samples are there and it ends within the lookahead |
| AudioContent.StopsPastLookahead | src/Session.cpp:333-354 | where it stops: at the first audio packet behind the boundary keyframe that is known to be past the lookahead, or with the stream |
| AudioContent.EveryPacketIsKept | src/AacTranscoder.cpp:141-149 | the packets of a build are all that the encoder gives for these frames, in order, those without a time stamped with the frame's |
| AudioContent.BuildIsMade | src/Session.cpp:309-381 | so the packets of a build are all that the encoder gives for the consecutive 1024 samples of what the stream's audio packets decode to |
| AudioContent.RegularData | src/AacTranscoder.cpp:141-149 | with a regular encoder, the frame of an index is what the encoder makes of the frames up to delay after the one it stands for |
| AudioContent.BuiltData | src/Session.cpp:285-299 | so every frame of a build is made from the stream's own samples at its place |
| AudioContent.LastOfBuild | src/Session.cpp:289-291 | of the packets of a build with the same index, the last that is not empty gives the frame |
| AudioContent.BuiltIff | src/Session.cpp:287-291 | a build has a frame exactly where there is such a packet |
| AudioContent.FirstIntoCache | src/Session.cpp:292-294 | of a frame that the session's cache lacks, it takes the first that is not empty |
| AudioContent.FramesTaken | src/Session.cpp:385-401 | the audio of an output range is exactly every frame that build or cache has, the build's first, in order, each at its own time; a frame that neither has leaves a gap |
| AudioContent.FramesOfSegment | src/Session.cpp:285-401 | so it is in a segment, with the session's cache as it was before the build |
| AudioContent.RangeIsNeverEmpty | src/Session.cpp:181-185 | the output range in frames, at least one |
| Eviction.OldestKey | src/Session.cpp:594-595 | finds the least key |
| Eviction.KeepsLargest | src/Session.cpp:403-413 | what is kept is exactly the largest keys, as many as fit |
| Eviction.KeepsAdded | src/Session.cpp:592-598 | the new key stays, only smaller keys go, least first; the exact count |
| Eviction.WithinLimit | src/Session.cpp:592-598 | within the limit if and only if fewer than that many larger keys were there |
| Eviction.KeptIff | src/Session.cpp:403-413 | a key is kept if and only if fewer than the limit are larger |
| History.CacheInvisible | src/Session.cpp:385-400 | a build whose own frames cover the segment takes nothing from the session's cache |
| History.InvisibleIffCovered | src/Session.cpp:385-400 | a single build gives the same bytes with every cache there could be if and only if its own frames cover the segment |
| History.RequestKeepsFaithful | src/Session.cpp:154-601 | no request, for whatever segment and with whatever outcome, spoils a cached segment while there is nothing to borrow |
| History.HistoryIndependence | src/Session.cpp:154-601 | after any run of requests, in any order, with hits, evictions and failures, the reply for a segment that its own frames cover is that of a session without history |
| History.CachedFrom | src/Session.cpp:285-299 | over every run, a cached frame is one that some segment's build alone would have left in the cache |
| History.HistoryIndependentIff | src/Session.cpp:154-601 | the reply for a segment is the same after every run if and only if no other segment's build leaves a frame in the cache that its own build lacks |
| History.OnlySegment | src/Session.cpp:154-601 | the only segment of a stream is the same after every run, covered or not |
| History.DescendingRequests | src/Session.cpp:590-600 | over the run of requests n - 1, ..., 0 all n segments stay, whatever the limit |
| History.OutOfRange | src/server.cpp:182-188 | an index is refused, after any history, exactly when it has no segment |
| History.AskedAgain | src/Session.cpp:154-601 | the same request made again is given the same bytes and changes nothing |
| History.RefusedIff | src/Session.cpp:416-419 | a segment that is not cached is refused if and only if it has no video |
| History.FramesWithinLimit | src/Session.cpp:403-413 | the frame cache never exceeds its limit, over every run |
| History.BuildKeepsLarger | src/Session.cpp:590-600 | a build adds its segment, changes none that it keeps, drops only smaller indices; exactly when the limit is met |
| History.ForwardStaysWithinLimit | src/Session.cpp:590-600 | over every run that only moves forward there are at most fifty segments |
| EndToEnd.BoundariesAreKeyframes | src/Demuxer.cpp:150-162 | every boundary is a keyframe's time, and every segment has video, read from its first keyframe on |
| EndToEnd.ReplyShows | src/Session.cpp:154-601 | the reply for a segment, after any history, reads back as the video packets between its bounds, under its number and its tracks |
| EndToEnd.ReplyHeaded | src/Session.cpp:421-448 | the reply is fragment index + 1, with video as track 1 and, if there is audio, audio as track 2; the indexes have the same ids in order, with timescales 16000 and 48000 |
| EndToEnd.ReplyLasts | src/Fmp4Writer.cpp:561-569 | what the video's index announces, from the packets alone: decode time and presentation time of the first, and the duration up to the last plus the last gap; a single packet's own, or 533 |
| EndToEnd.Playback | src/Session.cpp:154-601 | all segments, each requested after any history, read back as exactly the video packets between first and last boundary, with their times and bytes |
| EndToEnd.AudioPlayback | src/Session.cpp:154-601 | and as one audio frame every 1024 samples, from the priming to the last boundary |
| EndToEnd.ReplySounds | src/Session.cpp:385-443 | the audio in the reply, after any history, is a frame every 1024 samples of the segment's range, each from the segment's own build, which encodes the stream's own samples, as track 2; its index announces start and duration of the range |
| EndToEnd.ReplyEncodes | src/Session.cpp:285-401 | with a regular encoder, each of these frames is what the encoder makes of the stream's own samples at its place |
| EndToEnd.IndexReachesNext | src/Fmp4Writer.cpp:561-569 | with a constant frame interval, the duration read from a segment's index is the next segment's decode time less its own, as read back after any histories |
| EndToEnd.AllStay | src/Session.cpp:590-600 | on a described stream, all segments requested downwards stay |
| EndToEnd.SupplySuffices | src/Session.cpp:175-201 | what discharges the coverage hypothesis of playback: supply, and an encoder that holds back no more than is safe |
| EndToEnd.TenFramesSuffice | src/Session.cpp:175-201 | ten frames are safe in every segment, if the priming is at most one frame, the first segment starts within the preroll and at most 784 samples are lost |
| FromFile.FromFileToPlayer | src/Demuxer.cpp:82-168 | playback from the bytes of the file on: the cues written in it choose the boundaries |
| InitMatches.InitDeclares | src/Session.cpp:69-108 | what a reader finds in a session's init segment: track 1 is video at 16000, track 2, if there is audio, sound at 48000 with the encoder's priming skipped |
| InitMatches.TracksMatch | src/Session.cpp:78-103 | every reply, after any history, has just the tracks that the init segment declares, with the same ids and timescales in the same order |
| SmallFile.FileHasTimes | src/Demuxer.cpp:82-168 | for every list of times there is a file in which the demuxer finds cues at exactly these times |
| Possible.Possible | src/Session.cpp:154-601 | for every list of times there are a file, a stream with gapless audio and an encoder that meet all that playback of video and audio takes for granted |
| Failures.HeldExactly | src/Session.cpp:309-381 | on that stream a build decodes exactly the samples from its decode start to the lookahead |
| Failures.FirstMarginAttained | src/Session.cpp:175-201 | on that stream a first segment of 64 ms is covered if and only if the encoder holds back no more than the margin of its priming |
| Failures.ElevenFramesUncovered | src/Session.cpp:175-201 | eleven frames with the usual priming of 1024, and nine with 2112, leave that segment uncovered |
| Failures.RepliesDiffer | src/Session.cpp:154-601 | a file, a stream and two histories after which the replies for the same segment differ |
| Failures.FiftyOneStay | src/Session.cpp:590-600 | a stream of fifty-one segments, requested from the last to the first: the cache of fifty holds all |

## Left out

- HTTP range reads, the server and its routes, session expiry, mutexes: network plumbing. Requests are a sequence.
- FFmpeg's demuxer, decoders, resampler and encoder: packets, their times in milliseconds and in 1/16000 s, and two functions for the codecs are parameters. Nothing is claimed about real AAC bytes.
- Failures inside FFmpeg calls and in memory allocation; a file without a video stream, which the source refuses when it is opened.
- libavformat's own seek and index (`av_add_index_entry`, `avformat_seek_file`): where it starts reading is the parameter `fallback` of `Demux.Media`, and playback assumes that it does not overshoot.
- Raw pointers, moves and reallocation in `SampleStore`: samples are values whose size is the length of their data.
- Debug counters, log text and timing.
- The text of the manifest and its floating-point formatting: durations are exact reals.
- The codec parameters and languages that FFmpeg reports for a file are parameters (`SessionSpec.Streams`).
- The video and audio codec parameters in a media segment's tracks, which the segment writer never looks at.
- The file after the last cue: tiling and playback reach up to the last boundary.
- Whether the samples of a frame belong to its time: frames are cut from what is decoded, so that a first segment that starts past the preroll carries samples from its decode start on under times from the priming on (AudioContent.FrameFed).
- Sync flags of later keyframes in a segment, earliest presentation times over reordered frames: the source does not write them.
- Sizes of unknown length in EBML, and box sizes 0 and 1, which no writer here emits. The reader of fragments takes data offsets relative to the moof and runs with a size and a duration for each sample.
- MkvHeader.ParseCuesLocation: resolves positions once the last one is known, where the source resolves each as it finds it. Positions of 2^63 and more, and offsets that do not fit an `int`, are computed without wrapping.
- MkvHeader.ParseCuesSize: gives size 0 at a negative offset, where the source reads in front of the buffer.
- MkvHeader.FindSegmentStart: does not model the truncation of an EBML header's end to `int`.
- Ebml.EbmlScanChildren: collects the visitor's calls in order, and each caller then goes through them; the source calls the visitor while it scans.
- Cues.ParseCuesData: multiplies times with the scale without 64-bit wrap-around.
- Demux.Demuxer.EnsureCueIndex: reads of a file give all bytes there are; a negative position gives none; libavformat's index entries are left out.
- Demux.Demuxer.SeekToMs: libavformat's own seek, where there is no cue to use, is a parameter.
- Tiling.SeekNeverOvershoots: takes for granted that libavformat's own seek does not overshoot.
- Aac.AacTranscoder.Reset: that it returns the encoder to a fixed state is an assumption.
- Sessions.Session.BuildSegmentLocked: milliseconds and sample counts are unbounded; only the casts of the source wrap.
- SegmentRoundTrip.SegmentRoundTrip: for segments below 2^31 bytes, the range of a data offset and of a referenced size.
- SegmentRoundTrip.SegmentInjective: says nothing about sync flags and the decode times of samples after the first, which a segment does not hold.
- History.HistoryIndependentIff: for a segment that has video and stays below 2^31 bytes with whatever is borrowed.
- InitRoundTrip.InitRoundTrip: for init segments below 2^32 bytes, the range of a box size.
- EndToEnd.Playback: assumes that cues describe the stream, that decode times of video increase by less than 2^32 and composition offsets fit 32 bits, and that every segment is below 2^31 bytes and covered by its own frames (EndToEnd.SupplySuffices says when); Possible.Possible shows that this can be met.
- MkvHeaderEncoding.LocationRoundTrip: elements before the Cues have data and known sizes; the buffer may end inside an element that means nothing to the parser.
- A Cues element of more than 32 MB is read in part; what is then found is CuesEncoding.TruncatedRoundTrip.
