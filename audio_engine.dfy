/** The collaborators the RetroPlayer audio bridge talks to, reduced to what the
    bridge can observe of them: the audio engine's stream factory, the streams it
    hands out, and the player's process-info record. Their internals (device
    handling, buffering, timing) are not modelled; the ghost fields record the
    calls the bridge makes so that its contracts can speak about them.
 */
module AudioEngine {

  datatype Option<T> = None | Some(value: T)

  /** A PCM sample format as the engine's utilities describe it: `bits` is the
      container width of one sample (what the frame size is computed from) and
      `usedBits` the bits that carry signal (what is reported as bit depth). */
  datatype DataFormat = DataFormat(id: nat, bits: nat, usedBits: nat)

  /** An ordered list of speaker positions. */
  datatype ChannelLayout = ChannelLayout(channels: seq<nat>)

  /** The format the bridge asks the engine to open a stream with. */
  datatype AudioFormat = AudioFormat(dataFormat: DataFormat, sampleRate: nat, channelLayout: ChannelLayout)

  /** One call of a stream's AddData: where in the buffer it starts, and how many frames. */
  datatype Push = Push(offset: nat, frames: nat)

  /** A stream handed out by the engine. It keeps the format it was made with and
      records every batch of frames it is given. */
  class AudioStream {
    const format: AudioFormat
    ghost var pushes: seq<Push>

    constructor (format: AudioFormat)
      ensures this.format == format && pushes == []
    {
      this.format := format;
      pushes := [];
    }

    function GetChannelCount(): nat
    {
      |format.channelLayout.channels|
    }

    method AddData(offset: nat, frames: nat)
      modifies this
      ensures pushes == old(pushes) + [Push(offset, frames)]
    {
      pushes := pushes + [Push(offset, frames)];
    }
  }

  /** What the engine saw happen to its streams, in order. */
  datatype Event = Made(stream: AudioStream) | Freed(stream: AudioStream)

  /** The audio engine's stream factory. `live` holds the streams made and not yet
      freed; `events` is the history of both calls; `requests` is every format a
      stream was asked for, whether or not the engine could make it. */
  class Engine {
    ghost var live: set<AudioStream>
    ghost var events: seq<Event>
    ghost var requests: seq<AudioFormat>

    constructor ()
      ensures live == {} && events == [] && requests == []
    {
      live := {};
      events := [];
      requests := [];
    }

    /** May fail (no device, device busy): then it returns null and only the request
        is recorded. */
    method MakeStream(format: AudioFormat) returns (s: AudioStream?)
      modifies this
      ensures requests == old(requests) + [format]
      ensures s == null ==> live == old(live) && events == old(events)
      ensures s != null ==> fresh(s) && s.format == format && s.pushes == []
      ensures s != null ==> live == old(live) + {s} && events == old(events) + [Made(s)]
    {
      // whether a device can take the stream is decided outside this model
      var available: bool := *;
      requests := requests + [format];
      if available {
        s := new AudioStream(format);
        live := live + {s};
        events := events + [Made(s)];
      } else {
        s := null;
      }
    }

    /** Only a live stream may be freed, so a stream can be freed at most once. */
    method FreeStream(s: AudioStream)
      requires s in live
      modifies this
      ensures live == old(live) - {s} && events == old(events) + [Freed(s)]
      ensures requests == old(requests)
    {
      live := live - {s};
      events := events + [Freed(s)];
    }
  }

  /** The player's process information: the last audio parameters reported to it. */
  class ProcessInfo {
    ghost var audioChannels: Option<ChannelLayout>
    ghost var audioSampleRate: Option<nat>
    ghost var audioBitsPerSample: Option<nat>

    constructor ()
      ensures audioChannels == None && audioSampleRate == None && audioBitsPerSample == None
    {
      audioChannels, audioSampleRate, audioBitsPerSample := None, None, None;
    }

    method SetAudioChannels(layout: ChannelLayout)
      modifies this
      ensures audioChannels == Some(layout)
      ensures audioSampleRate == old(audioSampleRate) && audioBitsPerSample == old(audioBitsPerSample)
    {
      audioChannels := Some(layout);
    }

    method SetAudioSampleRate(rate: nat)
      modifies this
      ensures audioSampleRate == Some(rate)
      ensures audioChannels == old(audioChannels) && audioBitsPerSample == old(audioBitsPerSample)
    {
      audioSampleRate := Some(rate);
    }

    method SetAudioBitsPerSample(bits: nat)
      modifies this
      ensures audioBitsPerSample == Some(bits)
      ensures audioChannels == old(audioChannels) && audioSampleRate == old(audioSampleRate)
    {
      audioBitsPerSample := Some(bits);
    }
  }
}
