/** The buffer tracker: derives the current buffer occupancy, in segments,
    from the playback-buffer samples the buffer monitor reports. */
module BufferTracker {

  /** One report of the buffer monitor: when it was taken and how many
      segments the playback buffer held. */
  datatype Sample = Sample(time: real, level: int)

  /** Segments buffered ahead of the one being played: the newest sample's
      level less the segment in playback, or 0 before any sample exists. */
  function BufferSize(samples: seq<Sample>): (r: int)
    ensures |samples| == 0 ==> r == 0
    ensures |samples| > 0 ==> r + 1 == samples[|samples| - 1].level
  {
    if |samples| > 0 then samples[|samples| - 1].level - 1 else 0
  }

  /** Only the newest sample matters: whatever history precedes it, the
      buffer size is its level less one; with no samples it is 0. */
  lemma BufferSizeReadsNewest(older: seq<Sample>, newest: Sample)
    ensures BufferSize([]) == 0
    ensures BufferSize(older + [newest]) == newest.level - 1
    ensures forall other: seq<Sample> :: BufferSize(other + [newest]) == BufferSize(older + [newest])
  {
  }
}
