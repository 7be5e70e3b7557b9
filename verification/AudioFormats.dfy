/** What the two ends of an audio stream say to each other: transport, format and data
    frames (internal/audio/transport.go, internal/audio/stream.go). */
module AudioFormats {
  import opened Bytes
  import opened Options
  import opened Frames
  import opened Pcm

  datatype Kind = Desktop | Mic
  datatype Mode = PcmMode | OpusMode
  datatype Profile = LowLatency | Balanced | Music

  const OPUS_RATE: nat := 48000
  const PCM_MAX_RATE: nat := 48000

  function TransportMsg(k: Kind): Byte {
    if k == Mic then MSG_MIC_TRANSPORT else MSG_AUDIO_TRANSPORT
  }

  function FormatMsg(k: Kind): Byte {
    if k == Mic then MSG_MIC_FORMAT else MSG_AUDIO_FORMAT
  }

  function DataMsg(k: Kind): Byte {
    if k == Mic then MSG_MIC_DATA else MSG_AUDIO_DATA
  }

  function EncodeMode(m: Mode): seq<Byte> {
    if m == OpusMode then [1] else [0]
  }

  function DecodeMode(payload: seq<Byte>): Option<Mode> {
    if |payload| != 1 then None
    else if payload[0] == 0 then Some(PcmMode)
    else if payload[0] == 1 then Some(OpusMode)
    else None
  }

  /** What a stream's data is made with: the transport and the decoded format. */
  datatype Made = Made(mode: Mode, rate: nat, channels: nat)

  function WireSpec(m: Made): Spec {
    Spec(m.rate, m.channels, m.channels * 2, Pcm16)
  }

  predicate ValidMade(m: Made) {
    8000 <= m.rate <= 48000 && 1 <= m.channels <= 2
  }

  function Min(a: nat, b: nat): nat {
    if a < b then a else b
  }

  /** The choice configureLocked makes for a device. */
  function Choose(k: Kind, dev: Spec, opus: bool): Made {
    Made(if opus then OpusMode else PcmMode,
         if opus then OPUS_RATE else Min(dev.rate, PCM_MAX_RATE),
         if k == Mic then 1 else Min(dev.channels, 2))
  }

  function Announcement(k: Kind, m: Made): seq<Frame>
    requires ValidMade(m)
  {
    [Frame(TransportMsg(k), EncodeMode(m.mode)), Frame(FormatMsg(k), Pcm16Format(m.rate, m.channels))]
  }

  /** Samples per channel of one Opus frame: 10 ms for low latency, else 20 ms. */
  function FrameSamples(p: Profile): nat {
    if p == LowLatency then 480 else 960
  }

  /** How long an Opus frame lasts. */
  function FrameMs(p: Profile): nat {
    if p == LowLatency then 10 else 20
  }

  lemma FrameDuration(p: Profile)
    ensures FrameSamples(p) * 1000 == OPUS_RATE * FrameMs(p)
  {
  }

  /** All frames of a stream travel in the ordered audio lane, only its data may be dropped
      there, and nothing of one stream is taken for the other's. */
  lemma StreamInOneLane(k: Kind)
    ensures IsAudioLane(TransportMsg(k)) && IsAudioLane(FormatMsg(k)) && IsAudioLane(DataMsg(k))
    ensures IsAudioData(DataMsg(k)) && !IsAudioData(TransportMsg(k)) && !IsAudioData(FormatMsg(k))
    ensures TransportMsg(k) != FormatMsg(k) && {TransportMsg(Desktop), FormatMsg(Desktop), DataMsg(Desktop)}
                                              !! {TransportMsg(Mic), FormatMsg(Mic), DataMsg(Mic)}
  {
  }

  /** What is chosen for a device: the microphone is mono, desktop audio keeps up to two
      channels; PCM keeps rates up to 48 kHz and Opus is always at 48 kHz. */
  lemma ChosenFor(k: Kind, dev: Spec, opus: bool)
    requires ValidSpec(dev)
    ensures var m := Choose(k, dev, opus);
            && (k == Mic ==> m.channels == 1)
            && (k == Desktop ==> m.channels <= dev.channels && (dev.channels <= 2 ==> m.channels == dev.channels)
                                 && (dev.channels >= 2 ==> m.channels == 2))
            && (m.mode == OpusMode <==> opus) && (opus ==> m.rate == 48000)
            && (!opus ==> m.rate <= dev.rate && (dev.rate <= 48000 ==> m.rate == dev.rate) && (dev.rate > 48000 ==> m.rate == 48000))
  {
  }

  // The receiver's state

  datatype In = In(mode: Option<Mode>, ready: bool, spec: Option<Spec>)

  const IN_START := In(None, false, None)

  function OnTransport(s: In, payload: seq<Byte>): In {
    var m := DecodeMode(payload);
    if m == None then s else s.(mode := m, ready := false)
  }

  /** `decoderOk` says whether an Opus decoder could be created. */
  function OnFormat(s: In, payload: seq<Byte>, decoderOk: bool): In {
    var spec := ParseSpec(payload);
    if spec == None then s.(ready := false)
    else
      var mode := if s.mode == None then Some(PcmMode) else s.mode;
      if mode == Some(OpusMode) && (spec.value.channels > 2 || !decoderOk) then s.(mode := mode, ready := false)
      else In(mode, true, spec)
  }

  /** A format makes the receiver ready exactly if it can be decoded and, for Opus, has at most
      two channels and a decoder is to be had; without a transport so far it is taken for PCM.
      Nothing but a format does. */
  lemma ReadyWhen(s: In, payload: seq<Byte>, decoderOk: bool)
    ensures var u, spec := OnFormat(s, payload, decoderOk), ParseSpec(payload);
            && (u.ready <==> spec.Some? && (s.mode == Some(OpusMode) ==> spec.value.channels <= 2 && decoderOk))
            && (u.ready ==> u.spec == spec && u.mode == if s.mode == None then Some(PcmMode) else s.mode)
            && (!u.ready ==> u.spec == s.spec)
    ensures var u := OnTransport(s, payload);
            && (u != s ==> !u.ready && |payload| == 1 && u == s.(ready := false, mode := u.mode))
            && (payload == [0] ==> u.mode == Some(PcmMode)) && (payload == [1] ==> u.mode == Some(OpusMode))
            && (payload != [0] && payload != [1] ==> u == s)
  {
  }

  /** How a data frame is decoded, or that it is not. */
  datatype Played = Dropped | Pcm(spec: Spec, samples: seq<real>) | Opus(spec: Spec, packet: seq<Byte>)

  predicate InOk(s: In) {
    s.ready ==> s.mode.Some? && s.spec.Some? && ValidSpec(s.spec.value)
  }

  /** `packetOk` says whether the Opus decoder accepts the packet. */
  function OnData(s: In, payload: seq<Byte>, packetOk: bool): Played
    requires InOk(s)
  {
    if !s.ready || payload == [] then Dropped
    else if s.mode == Some(OpusMode) then
      if packetOk then Opus(s.spec.value, payload) else Dropped
    else if |payload| % s.spec.value.blockAlign != 0 then Dropped
    else Pcm(s.spec.value, Decoded(payload, s.spec.value))
  }

  /** What a ready PCM receiver makes of a payload: dropped exactly if it is empty or ends
      within a frame, else one sample per channel of each frame, each from its own bytes. */
  lemma ReceivedSamples(s: In, payload: seq<Byte>, packetOk: bool)
    requires InOk(s) && s.ready && s.mode == Some(PcmMode)
    ensures var spec, p := s.spec.value, OnData(s, payload, packetOk);
            && (p == Dropped <==> payload == [] || |payload| % spec.blockAlign != 0)
            && (p != Dropped ==>
                  && p.Pcm? && p.spec == spec && |p.samples| == |payload| / spec.blockAlign * spec.channels
                  && forall f: nat, c: nat :: f < |payload| / spec.blockAlign && c < spec.channels ==>
                       SampleFrom(p.samples, payload, spec, f, c))
  {
    hide Decoded;
    DecodedBounds(payload, s.spec.value);
    forall f: nat, c: nat | f < |payload| / s.spec.value.blockAlign && c < s.spec.value.channels
      ensures SampleFrom(Decoded(payload, s.spec.value), payload, s.spec.value, f, c)
    {
      DecodedAt(payload, s.spec.value, f, c);
    }
  }

  /** Sample c of frame f is read from the bytes of sample c of frame f. */
  predicate SampleFrom(samples: seq<real>, payload: seq<Byte>, spec: Spec, f: nat, c: nat) {
    var i, o, size := f * spec.channels + c, f * spec.blockAlign + c * SampleSize(spec.codec), SampleSize(spec.codec);
    && 0 <= i < |samples| && 0 <= o && o + size <= |payload|
    && samples[i] == DecodeSample(spec.codec, payload[o..o + size])
  }

  /** A ready Opus receiver hands the whole packet on. */
  lemma ReceivedPacket(s: In, payload: seq<Byte>, packetOk: bool)
    requires InOk(s) && s.ready && s.mode == Some(OpusMode)
    ensures var p := OnData(s, payload, packetOk);
            if payload == [] || !packetOk then p == Dropped else p == Opus(s.spec.value, payload)
  {
  }

  lemma InStaysOk(s: In, payload: seq<Byte>, decoderOk: bool)
    requires InOk(s)
    ensures InOk(OnTransport(s, payload)) && InOk(OnFormat(s, payload, decoderOk))
  {
  }

  /** The frames of an announcement put the receiver exactly into the announced
      state, or, if no decoder is to be had, into one that plays nothing. */
  lemma AnnouncementUnderstood(s: In, k: Kind, m: Made, decoderOk: bool)
    requires InOk(s) && ValidMade(m)
    ensures var frames := Announcement(k, m);
            OnFormat(OnTransport(s, frames[0].payload), frames[1].payload, decoderOk) ==
            if m.mode == PcmMode || decoderOk then In(Some(m.mode), true, Some(WireSpec(m)))
            else In(Some(m.mode), false, s.spec)
  {
    AnnouncedFormatUnderstood(m.rate, m.channels);
  }

  lemma ChoiceIsValid(k: Kind, dev: Spec, opus: bool)
    requires ValidSpec(dev)
    ensures ValidMade(Choose(k, dev, opus))
  {
  }

  /** inbound half: InboundStream. */
  class InboundStream {
    const kind: Kind
    var mode: Option<Mode>
    var ready: bool
    var spec: Option<Spec>
    var hasDecoder: bool
    var rate: nat
    var channels: nat
    var dropped: nat

    ghost function View(): In
      reads this
    {
      In(mode, ready, spec)
    }

    ghost predicate Valid()
      reads this
    {
      && InOk(View())
      && (ready ==> rate == spec.value.rate && channels == spec.value.channels)
      && (ready && mode == Some(OpusMode) ==> hasDecoder)
    }

    constructor (kind: Kind)
      ensures Valid() && View() == IN_START && dropped == 0 && this.kind == kind
    {
      this.kind := kind;
      mode, ready, spec, hasDecoder := None, false, None, false;
      rate, channels, dropped := 0, 0, 0;
    }

    method HandleTransport(payload: seq<Byte>) returns (ok: bool)
      requires Valid()
      modifies this
      ensures Valid() && View() == OnTransport(old(View()), payload) && dropped == old(dropped)
      ensures ok <==> DecodeMode(payload).Some?
    {
      var m := DecodeMode(payload);
      if m == None {
        return false;
      }
      mode, ready, hasDecoder := m, false, false;
      ok := true;
    }

    method HandleFormat(payload: seq<Byte>, decoderOk: bool) returns (ok: bool)
      requires Valid()
      modifies this
      ensures Valid() && View() == OnFormat(old(View()), payload, decoderOk) && dropped == old(dropped)
      ensures ok <==> ready
    {
      ready, hasDecoder := false, false;
      var s := ParseSpec(payload);
      if s == None {
        return false;
      }
      if mode == None {
        mode := Some(PcmMode);
      }
      if mode == Some(OpusMode) {
        if s.value.channels > 2 || !decoderOk {
          return false;
        }
        hasDecoder := true;
      }
      spec := s;
      rate, channels := s.value.rate, s.value.channels;
      ready := true;
      ok := true;
    }

    method HandleData(payload: seq<Byte>, packetOk: bool) returns (p: Played)
      requires Valid()
      modifies this`dropped
      ensures Valid() && p == OnData(View(), payload, packetOk)
      ensures dropped == old(dropped) + (if p == Dropped then 1 else 0)
      ensures p.Pcm? ==> |p.samples| == |payload| / p.spec.blockAlign * p.spec.channels
    {
      if !ready || |payload| == 0 {
        dropped := dropped + 1;
        return Dropped;
      }
      if mode == Some(OpusMode) {
        if !packetOk {
          dropped := dropped + 1;
          return Dropped;
        }
        return Opus(spec.value, payload);
      }
      if |payload| % spec.value.blockAlign != 0 {
        dropped := dropped + 1;
        return Dropped;
      }
      var samples := DecodePCM([], payload, spec.value);
      DecodedBounds(payload, spec.value);
      p := Pcm(spec.value, samples);
    }

    method Reset()
      requires Valid()
      modifies this
      ensures Valid() && mode == None && !ready && dropped == old(dropped)
    {
      mode, ready, hasDecoder := None, false, false;
    }
  }
}
