/** Playback from the bytes of a file. */
module FromFile {
  import opened Bytes
  import opened CuesEncoding
  import opened MkvHeaderEncoding
  import opened Keyframes
  import opened Demux
  import opened CueIndex
  import opened SessionSpec
  import opened History
  import opened EndToEnd

  /** From the bytes of the file on: the cues that are written in the file, found through its seek head, are the ones
      that choose the boundaries and lead to the packets. */
  lemma FromFileToPlayer(source: Source, f: FileStart, sizeWidth: nat, items: seq<CuesItem>, rest: seq<Byte>,
                         keyOf: seq<nat>, histories: nat -> seq<int>)
    requires var file := source.media.file;
             && StartsAs(file, f) && CuesPosition(f.items).Some?
             && LegalCues(sizeWidth, items) && 12 <= |EncodeCues(sizeWidth, items)| <= 0x200_0000
             && var at := BodyStart(f) + CuesPosition(f.items).value;
                at < |file| && file[at..] == EncodeCues(sizeWidth, items) + rest
    requires DescribedBy(source.media, Meanings(items, ScaleOf(f.items), VideoTrackOf(f.items), BodyStart(f)), keyOf)
    requires Buildable(source) && Bounds(source) != []
    requires Steady(Between(source, 0, |Bounds(source)| - 1))
    ensures var cues := Meanings(items, ScaleOf(f.items), VideoTrackOf(f.items), BodyStart(f));
            Bounds(source) == Filtered(TimesOf(cues), 10000)
    ensures Played(source, histories, |Bounds(source)| - 1) == MeantBy(Between(source, 0, |Bounds(source)| - 1))
  {
    var cues := Meanings(items, ScaleOf(f.items), VideoTrackOf(f.items), BodyStart(f));
    hide StartsAs, LegalCues, EncodeCues, CuesOf, DescribedBy, Buildable, Steady, Between, Filtered, Played,
         Meanings, MeantBy, BodyStart, CuesPosition, ScaleOf, VideoTrackOf;
    IndexOfFile(source.media.file, f, sizeWidth, items, rest);
    assert Described(source.media, keyOf);
    Playback(source, keyOf, histories, |Bounds(source)| - 1);
  }
}
