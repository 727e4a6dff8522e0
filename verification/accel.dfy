/** The hardware acceleration kinds a transcode can ask for. */
module Accel {
  import opened Seqs

  datatype HwAccelType = Auto | Nvenc | Qsv | Amf | Software

  /** The kinds in the order the settings screen lists them, each once. */
  function AllHwAccelTypes(): (r: seq<HwAccelType>)
    ensures |r| == 5 && NoDuplicates(r)
  {
    [Auto, Nvenc, Qsv, Amf, Software]
  }

  lemma AllHwAccelTypesComplete(h: HwAccelType)
    ensures h in AllHwAccelTypes()
  {
  }

  /** The kinds that name a vendor encoder family. */
  predicate IsVendor(h: HwAccelType)
  {
    h == Nvenc || h == Qsv || h == Amf
  }
}
