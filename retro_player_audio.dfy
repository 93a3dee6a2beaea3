/** The RetroPlayer audio bridge: it owns at most one engine stream, opens it only
    at a rate the engine supports without resampling, closes it on every path
    (reopen, explicit close, destruction) and relays PCM buffers to it as whole
    frames while audio is enabled.
 */
module RetroPlayer {
  import opened SampleRate
  import opened AudioEngine

  /** 2^32: unsigned int arithmetic wraps modulo this. */
  const UIntRange: nat := 0x1_0000_0000

  /** Bytes per frame: the channel count times the whole bytes of one sample
      (the container width shifted right by three), an unsigned int product. */
  function FrameSize(channelCount: nat, bits: nat): nat
  {
    (channelCount * (bits / 8)) % UIntRange
  }

  /** Frames in a buffer of `size` bytes: floor division, narrowed to unsigned int.
      Only whole frames are counted: the bytes they cover never exceed `size`, and
      what is left over is the trailing partial frame, shorter than one frame. */
  function FrameCount(size: nat, frameSize: nat): (frames: nat)
    requires frameSize > 0
    ensures size / frameSize < UIntRange ==>
              frames * frameSize <= size && size - frames * frameSize == size % frameSize < frameSize
  {
    var q := size / frameSize;
    assert q < UIntRange ==> q % UIntRange == q;
    assert q * frameSize + size % frameSize == size;
    q % UIntRange
  }

  /** Two 16-bit channels make 4-byte frames, so 10 bytes carry 2 frames. */
  lemma TenBytesOfStereo16AreTwoFrames()
    ensures FrameSize(2, 16) == 4
    ensures FrameCount(10, FrameSize(2, 16)) == 2
  {
  }

  /** The events that closing `s` leaves in the engine's history. */
  ghost function Released(s: AudioStream?): seq<Event>
  {
    if s == null then [] else [Freed(s)]
  }

  ghost function AsSet(s: AudioStream?): set<AudioStream>
  {
    if s == null then {} else {s}
  }

  class RetroPlayerAudio {
    const processInfo: ProcessInfo
    const engine: Engine
    var audioStream: AudioStream?
    /** The mute toggle; it is set by the owner and only read here. */
    var audioEnabled: bool
    /** How many streams this bridge has obtained from the engine, and freed. */
    ghost var created: nat
    ghost var freed: nat

    /** No leak: every stream made has been freed except the one held, and the one
        held is still live in the engine. */
    ghost predicate Valid()
      reads this, engine
    {
      created == freed + (if audioStream == null then 0 else 1) &&
      (audioStream != null ==> audioStream in engine.live)
    }

    constructor (processInfo: ProcessInfo, engine: Engine)
      ensures Valid()
      ensures this.processInfo == processInfo && this.engine == engine
      ensures audioStream == null && audioEnabled
      ensures created == 0 && freed == 0
    {
      this.processInfo := processInfo;
      this.engine := engine;
      audioStream := null;
      audioEnabled := true;
      created, freed := 0, 0;
    }

    /** The destructor: it always closes, so no stream outlives the bridge. */
    method Destroy()
      requires Valid()
      modifies this, engine
      ensures Valid() && audioStream == null && created == freed
      ensures freed == old(freed) + |Released(old(audioStream))|
      ensures engine.events == old(engine.events) + Released(old(audioStream))
      ensures engine.live == old(engine.live) - AsSet(old(audioStream))
      ensures engine.requests == old(engine.requests)
    {
      CloseStream();
    }

    /** Closes any open stream, then opens one at `samplerate` if that rate is a
        table entry and the engine can make the stream. */
    method OpenPCMStream(format: DataFormat, samplerate: nat, channelLayout: ChannelLayout) returns (ok: bool)
      requires Valid()
      modifies this, engine, processInfo
      ensures Valid()
      ensures audioEnabled == old(audioEnabled)
      ensures ok <==> audioStream != null
      // the stream held before the call has been freed, exactly once
      ensures freed == old(freed) + |Released(old(audioStream))|
      ensures old(audioStream) != null ==> old(audioStream) !in engine.live
      // the engine is asked for exactly the requested format when, and only when,
      // the rate is a table entry; any other rate is refused before the engine is asked
      ensures engine.requests == old(engine.requests) +
                (if samplerate in SupportedRates then [AudioFormat(format, samplerate, channelLayout)] else [])
      ensures ok ==> samplerate in SupportedRates
      ensures !ok ==> created == old(created)
      ensures !ok ==> engine.events == old(engine.events) + Released(old(audioStream))
      ensures !ok ==> engine.live == old(engine.live) - AsSet(old(audioStream))
      ensures !ok ==> processInfo.audioChannels == old(processInfo.audioChannels)
      ensures !ok ==> processInfo.audioSampleRate == old(processInfo.audioSampleRate)
      ensures !ok ==> processInfo.audioBitsPerSample == old(processInfo.audioBitsPerSample)
      // on success the old stream was freed before the new one was made
      ensures ok ==> created == old(created) + 1 && fresh(audioStream)
      ensures ok ==> engine.events == old(engine.events) + Released(old(audioStream)) + [Made(audioStream)]
      ensures ok ==> engine.live == old(engine.live) - AsSet(old(audioStream)) + {audioStream}
      ensures ok ==> audioStream.format == AudioFormat(format, samplerate, channelLayout)
      ensures ok ==> audioStream.pushes == []
      ensures ok ==> processInfo.audioChannels == Some(channelLayout)
      ensures ok ==> processInfo.audioSampleRate == Some(samplerate)
      ensures ok ==> processInfo.audioBitsPerSample == Some(format.usedBits)
    {
      if audioStream != null {
        CloseStream();
      }
      // the state every return path starts from: old stream freed, nothing else done
      assert engine.events == old(engine.events) + Released(old(audioStream));
      assert engine.live == old(engine.live) - AsSet(old(audioStream));
      assert audioStream == null && created == old(created);
      assert engine.requests == old(engine.requests);

      // resampling is not supported
      var normalized := NormalizeSamplerate(samplerate);
      NormalizedFixedPointIffSupported(samplerate);
      if normalized != samplerate {
        return false;
      }

      var audioFormat := AudioFormat(format, samplerate, channelLayout);
      audioStream := engine.MakeStream(audioFormat);
      if audioStream == null {
        return false;
      }
      created := created + 1;

      processInfo.SetAudioChannels(audioFormat.channelLayout);
      processInfo.SetAudioSampleRate(audioFormat.sampleRate);
      processInfo.SetAudioBitsPerSample(audioFormat.dataFormat.usedBits);
      return true;
    }

    /** Encoded streams are not supported: the call reports success and, having
        no modifies clause, changes nothing. */
    method OpenEncodedStream(codec: nat, samplerate: nat, channelLayout: ChannelLayout) returns (ok: bool)
      ensures ok
    {
      return true;
    }

    /** Relays `size` bytes of PCM to the open stream as whole frames from offset 0;
        drops them when audio is disabled or no stream is open. */
    method AddData(size: nat)
      requires Valid()
      requires audioEnabled && audioStream != null ==>
                 FrameSize(audioStream.GetChannelCount(), audioStream.format.dataFormat.bits) > 0
      modifies AsSet(audioStream)
      ensures Valid()
      ensures audioStream != null && !audioEnabled ==> audioStream.pushes == old(audioStream.pushes)
      ensures audioStream != null && audioEnabled ==>
                audioStream.pushes == old(audioStream.pushes) +
                  [Push(0, FrameCount(size, FrameSize(audioStream.GetChannelCount(), audioStream.format.dataFormat.bits)))]
    {
      if audioEnabled {
        if audioStream != null {
          var frameSize := FrameSize(audioStream.GetChannelCount(), audioStream.format.dataFormat.bits);
          audioStream.AddData(0, FrameCount(size, frameSize));
        }
      }
    }

    /** Frees the open stream, if any, and forgets it; a second call frees nothing. */
    method CloseStream()
      requires Valid()
      modifies this, engine
      ensures Valid() && audioStream == null
      ensures audioEnabled == old(audioEnabled) && created == old(created)
      ensures freed == old(freed) + |Released(old(audioStream))|
      ensures engine.events == old(engine.events) + Released(old(audioStream))
      ensures engine.live == old(engine.live) - AsSet(old(audioStream))
      ensures engine.requests == old(engine.requests)
    {
      if audioStream != null {
        engine.FreeStream(audioStream);
        audioStream := null;
        freed := freed + 1;
      }
    }
  }

  /** A client of the contracts above: opening twice frees the first stream before
      the second is made, closing twice frees once, and destroying the bridge leaves
      nothing live in the engine. */
  method ReopenCloseDestroy(format: DataFormat, layout: ChannelLayout)
  {
    var engine := new Engine();
    var info := new ProcessInfo();
    var audio := new RetroPlayerAudio(info, engine);
    var refused := audio.OpenPCMStream(format, 45000, layout);
    assert !refused && engine.events == [] && engine.requests == [];
    var first := audio.OpenPCMStream(format, 44100, layout);
    var firstStream := audio.audioStream;
    var second := audio.OpenPCMStream(format, 48000, layout);
    assert engine.requests == [AudioFormat(format, 44100, layout), AudioFormat(format, 48000, layout)];
    if first && second {
      assert engine.events == [Made(firstStream), Freed(firstStream), Made(audio.audioStream)];
    }
    audio.CloseStream();
    var freedOnce := audio.freed;
    audio.CloseStream();
    assert audio.freed == freedOnce;
    audio.Destroy();
    assert engine.live == {} && audio.created == audio.freed;
  }
}
