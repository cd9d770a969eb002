/**
 * `AudioService`: the capture and output device handles, the playback
 * buffer, and the single mute flag that gates both directions.
 *
 * The devices are opaque handles whose ghost flags record what the service
 * asked of them (start, stop, dispose). Whether a device starts is the
 * parameter `deviceStarts`. The playback buffer is an append-only sequence
 * of bytes: what it does when full is the device library's business.
 */
module Audio {

  /** `WaveFormat(sampleRate, bits, channels)`. */
  datatype WaveFormat = WaveFormat(sampleRate: nat, bitsPerSample: nat, channels: nat)

  /** The one format used for capture and playback: 48 kHz, 16-bit, mono. */
  const Pcm48kMono: WaveFormat := WaveFormat(48000, 16, 1)

  /** The playback buffer's duration, in seconds. */
  const PlaybackSeconds: nat := 2

  function BytesPerSecond(f: WaveFormat): nat {
    f.sampleRate * (f.bitsPerSample / 8) * f.channels
  }

  /** A capture device handle (`WaveInEvent`). */
  class WaveIn {
    const format: WaveFormat
    ghost var recording: bool
    ghost var disposed: bool

    constructor (format: WaveFormat)
      ensures this.format == format && !recording && !disposed
    {
      this.format := format;
      recording := false;
      disposed := false;
    }
  }

  /** A playback buffer (`BufferedWaveProvider`): the bytes queued for output, in order. */
  class BufferedWaveProvider {
    const format: WaveFormat
    const bufferSeconds: nat
    var samples: seq<bv8>

    constructor (format: WaveFormat, bufferSeconds: nat)
      ensures this.format == format && this.bufferSeconds == bufferSeconds && samples == []
    {
      this.format := format;
      this.bufferSeconds := bufferSeconds;
      samples := [];
    }

    /** The buffer's capacity in bytes: its duration times the format's byte rate. */
    function BufferLength(): nat {
      bufferSeconds * BytesPerSecond(format)
    }

    /** `AddSamples(data, 0, data.Length)`: queue the whole of `data`. */
    method AddSamples(data: seq<bv8>)
      modifies this
      ensures samples == old(samples) + data
    {
      samples := samples + data;
    }
  }

  /** An output device handle (`WaveOutEvent`). */
  class WaveOut {
    ghost var source: BufferedWaveProvider?
    ghost var playing: bool
    ghost var disposed: bool

    constructor ()
      ensures source == null && !playing && !disposed
    {
      source := null;
      playing := false;
      disposed := false;
    }
  }

  class AudioService {
    var waveIn: WaveIn?
    var waveOut: WaveOut?
    var waveProvider: BufferedWaveProvider?
    var isMuted: bool

    /** Every handle the service holds was opened with the fixed format, and the buffer with the fixed duration. */
    ghost predicate Valid()
      reads this
    {
      && (waveIn != null ==> waveIn.format == Pcm48kMono)
      && (waveProvider != null ==> waveProvider.format == Pcm48kMono && waveProvider.bufferSeconds == PlaybackSeconds)
    }

    constructor ()
      ensures Valid()
      ensures waveIn == null && waveOut == null && waveProvider == null && !isMuted
    {
      waveIn := null;
      waveOut := null;
      waveProvider := null;
      isMuted := false;
    }

    /**
     * Opens a new capture handle with the fixed format and starts it. Any
     * handle already held is dropped without being stopped. If starting
     * fails, the new handle is kept but not recording.
     */
    method StartCapture(deviceStarts: bool)
      requires Valid()
      modifies this
      ensures Valid()
      ensures waveIn != null && fresh(waveIn)
      ensures waveIn.format == Pcm48kMono && waveIn.recording == deviceStarts && !waveIn.disposed
      ensures old(waveIn) != null ==> old(waveIn).recording == old(waveIn.recording)
      ensures waveOut == old(waveOut) && waveProvider == old(waveProvider) && isMuted == old(isMuted)
    {
      var w := new WaveIn(Pcm48kMono);
      waveIn := w;
      if deviceStarts {
        w.recording := true;
      }
    }

    /** Stops, disposes and forgets the capture handle; without one it does nothing. */
    method StopCapture()
      requires Valid()
      modifies this, waveIn
      ensures Valid()
      ensures waveIn == null
      ensures old(waveIn) != null ==> !old(waveIn).recording && old(waveIn).disposed
      ensures waveOut == old(waveOut) && waveProvider == old(waveProvider) && isMuted == old(isMuted)
    {
      if waveIn != null {
        waveIn.recording := false;
        waveIn.disposed := true;
        waveIn := null;
      }
    }

    /**
     * Opens a new output handle and a new two-second playback buffer with the
     * fixed format, attaches one to the other and starts playing. If the
     * device fails, both new objects are kept but nothing plays.
     */
    method StartPlayback(deviceStarts: bool)
      requires Valid()
      modifies this
      ensures Valid()
      ensures waveOut != null && fresh(waveOut) && waveProvider != null && fresh(waveProvider)
      ensures waveProvider.format == Pcm48kMono && waveProvider.bufferSeconds == PlaybackSeconds
      ensures waveProvider.samples == [] && waveProvider.BufferLength() == 192000
      ensures deviceStarts ==> waveOut.source == waveProvider && waveOut.playing
      ensures !deviceStarts ==> !waveOut.playing
      ensures !waveOut.disposed
      ensures waveIn == old(waveIn) && isMuted == old(isMuted)
    {
      var output := new WaveOut();
      waveOut := output;
      var provider := new BufferedWaveProvider(Pcm48kMono, PlaybackSeconds);
      waveProvider := provider;
      if deviceStarts {
        output.source := provider;
        output.playing := true;
      }
    }

    /** Stops, disposes and forgets the output handle; the playback buffer stays. */
    method StopPlayback()
      requires Valid()
      modifies this, waveOut
      ensures Valid()
      ensures waveOut == null
      ensures old(waveOut) != null ==> !old(waveOut).playing && old(waveOut).disposed
      ensures waveProvider == old(waveProvider) && waveIn == old(waveIn) && isMuted == old(isMuted)
    {
      if waveOut != null {
        waveOut.playing := false;
        waveOut.disposed := true;
        waveOut := null;
      }
    }

    /** Queues the whole frame for output when a playback buffer exists and the service is not muted. */
    method PlayAudio(audioData: array<bv8>)
      requires Valid()
      modifies waveProvider
      ensures waveProvider != null && !isMuted ==> waveProvider.samples == old(waveProvider.samples) + audioData[..]
      ensures waveProvider != null && isMuted ==> waveProvider.samples == old(waveProvider.samples)
    {
      if waveProvider != null && !isMuted {
        waveProvider.AddSamples(audioData[..]);
      }
    }

    method SetMuted(muted: bool)
      modifies this
      ensures isMuted == muted
      ensures waveIn == old(waveIn) && waveOut == old(waveOut) && waveProvider == old(waveProvider)
    {
      isMuted := muted;
    }

    /**
     * The capture callback. When not muted and the driver recorded some
     * bytes, it raises `AudioCaptured` with a new array holding exactly the
     * first `bytesRecorded` bytes of the driver's buffer (the result);
     * otherwise it raises nothing (null).
     */
    method OnDataAvailable(buffer: array<bv8>, bytesRecorded: int) returns (frame: array?<bv8>)
      requires bytesRecorded <= buffer.Length
      ensures (frame != null) == (!isMuted && bytesRecorded > 0)
      ensures frame != null ==> fresh(frame) && frame[..] == buffer[..bytesRecorded]
    {
      frame := null;
      if !isMuted && bytesRecorded > 0 {
        var copy := new bv8[bytesRecorded];
        var i := 0;
        while i < bytesRecorded
          invariant 0 <= i <= bytesRecorded
          invariant copy[..i] == buffer[..i]
        {
          copy[i] := buffer[i];
          i := i + 1;
        }
        frame := copy;
      }
    }
  }
}
