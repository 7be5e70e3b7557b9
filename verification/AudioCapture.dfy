/** OutboundStream of internal/audio/stream.go: captured device buffers become data
    frames. What is sent does not depend on how the capture was cut into buffers. */
module AudioCapture {
  import opened Bytes
  import opened Options
  import opened Frames
  import opened Arith
  import opened FrameMaps
  import opened Seqs
  import opened Pcm
  import opened PcmEncode
  import opened Channels
  import opened Resampler
  import opened AudioFormats

  /** Opus is foreign: a packet or an error for each block, whatever the encoder
      likes. The blocks it was given are recorded. */
  class OpusEncoder {
    ghost var blocks: seq<seq<real>>
    ghost var packets: seq<Option<seq<Byte>>>

    constructor ()
      ensures blocks == [] && packets == []
    {
      blocks, packets := [], [];
    }

    method EncodeFloat32(block: seq<real>) returns (packet: Option<seq<Byte>>)
      modifies this
      ensures blocks == old(blocks) + [block] && packets == old(packets) + [packet]
    {
      packet := *;
      blocks, packets := blocks + [block], packets + [packet];
    }
  }

  /** The data frames for a run of encoder results: one per packet that is not empty. */
  function Carried(kind: Kind, packets: seq<Option<seq<Byte>>>): seq<Frame> {
    if packets == [] then []
    else
      var p := packets[|packets| - 1];
      Carried(kind, packets[..|packets| - 1])
      + (if p.Some? && p.value != [] then [Frame(DataMsg(kind), p.value)] else [])
  }

  lemma CarriedSnoc(kind: Kind, a: seq<Option<seq<Byte>>>, p: Option<seq<Byte>>)
    ensures Carried(kind, a + [p]) == Carried(kind, a) + (if p.Some? && p.value != [] then [Frame(DataMsg(kind), p.value)] else [])
  {
    assert (a + [p])[..|a|] == a;
  }

  lemma {:induction false} CarriedConcat(kind: Kind, a: seq<Option<seq<Byte>>>, b: seq<Option<seq<Byte>>>)
    ensures Carried(kind, a + b) == Carried(kind, a) + Carried(kind, b)
  {
    if b == [] {
      assert a + b == a;
    } else {
      hide Carried;
      var n := |b| - 1;
      CarriedConcat(kind, a, b[..n]);
      CarriedSnoc(kind, a + b[..n], b[n]);
      CarriedSnoc(kind, b[..n], b[n]);
      assert a + b == (a + b[..n]) + [b[n]] && b == b[..n] + [b[n]];
      Rebracket(Carried(kind, a), Carried(kind, b[..n]),
                if b[n].Some? && b[n].value != [] then [Frame(DataMsg(kind), b[n].value)] else []);
    }
  }

  /** The packets leave in the order they were made: for every packet that is not empty there
      is one frame, it carries that packet, and the frames before it carry the packets made
      before it. */
  lemma CarriedInOrder(kind: Kind, packets: seq<Option<seq<Byte>>>, i: nat)
    requires i < |packets|
    ensures Carried(kind, packets) == Carried(kind, packets[..i]) + Carried(kind, [packets[i]]) + Carried(kind, packets[i + 1..])
    ensures Carried(kind, []) == []
    ensures Carried(kind, [packets[i]])
         == if packets[i] == None || packets[i] == Some([]) then [] else [Frame(DataMsg(kind), packets[i].value)]
  {
    assert packets == packets[..i] + [packets[i]] + packets[i + 1..];
    CarriedConcat(kind, packets[..i] + [packets[i]], packets[i + 1..]);
    CarriedConcat(kind, packets[..i], [packets[i]]);
  }

  lemma FlattenOneMore(blocks: seq<seq<real>>, pending: seq<real>, consumed: nat, chunk: nat)
    requires consumed + chunk <= |pending|
    ensures Flatten(blocks + [pending[consumed..consumed + chunk]]) + pending[consumed + chunk..]
         == Flatten(blocks) + pending[consumed..]
  {
    var b := pending[consumed..consumed + chunk];
    assert (blocks + [b])[..|blocks|] == blocks;
    assert b + pending[consumed + chunk..] == pending[consumed..];
  }

  /** A PCM frame carries its samples to the receiver to within the wire's tolerance:
      one and a half steps of 16-bit quantization. */
  lemma PcmFrameFidelity(made: seq<real>, m: Made, bits: real -> U32, n: nat)
    requires ValidMade(m) && |made| == n * m.channels
    ensures Near(Decoded(Encoded(made, WireSpec(m), bits), WireSpec(m)), made, 1.5 / 32768.0)
  {
    StreamFidelity(made, WireSpec(m), bits, n);
    assert made[..n * m.channels] == made;
  }

  /** Captured device bytes in the wire's channel layout. */
  function Layout(captured: seq<Byte>, dev: Spec, ch: nat): seq<real>
    requires ValidSpec(dev) && ch > 0
  {
    Mapped(Decoded(captured, dev), dev.channels, ch)
  }

  lemma LayoutConcat(a: seq<Byte>, b: seq<Byte>, dev: Spec, ch: nat, n: nat)
    requires ValidSpec(dev) && ch > 0 && |a| == n * dev.blockAlign
    ensures Layout(a + b, dev, ch) == Layout(a, dev, ch) + Layout(b, dev, ch)
  {
    FrameMapConcat(Decoder(dev), dev.blockAlign, a, b, n);
    DecodedBounds(a, dev);
    MulDiv(n, dev.blockAlign);
    FrameMapConcat(Mapper(dev.channels, ch), dev.channels, Decoded(a, dev), Decoded(b, dev), n);
  }

  lemma LayoutEmpty(dev: Spec, ch: nat)
    requires ValidSpec(dev) && ch > 0
    ensures Layout([], dev, ch) == []
  {
    FrameMapShort(Decoder(dev), dev.blockAlign, []);
    FrameMapShort(Mapper(dev.channels, ch), dev.channels, []);
  }

  /** The whole frames of a buffer. */
  function Whole(raw: seq<Byte>, dev: Spec): (w: seq<Byte>)
    requires ValidSpec(dev)
    ensures |w| == (|raw| / dev.blockAlign) * dev.blockAlign
  {
    DivBounds(|raw|, dev.blockAlign);
    raw[..(|raw| / dev.blockAlign) * dev.blockAlign]
  }

  lemma DecodedWhole(raw: seq<Byte>, dev: Spec)
    requires ValidSpec(dev)
    ensures Decoded(Whole(raw, dev), dev) == Decoded(raw, dev)
  {
    FrameMapWhole(Decoder(dev), dev.blockAlign, raw, |raw| / dev.blockAlign);
  }

  lemma LayoutWhole(captured: seq<Byte>, raw: seq<Byte>, dev: Spec, ch: nat, n: nat)
    requires ValidSpec(dev) && ch > 0 && |captured| == n * dev.blockAlign
    ensures Layout(captured + Whole(raw, dev), dev, ch) == Layout(captured, dev, ch) + Layout(raw, dev, ch)
    ensures |captured + Whole(raw, dev)| == (n + |raw| / dev.blockAlign) * dev.blockAlign
  {
    hide FrameMap;
    LayoutConcat(captured, Whole(raw, dev), dev, ch, n);
    DecodedWhole(raw, dev);
    assert (n + |raw| / dev.blockAlign) * dev.blockAlign == n * dev.blockAlign + (|raw| / dev.blockAlign) * dev.blockAlign;
  }

  /** What a capture is worth on the wire. */
  ghost function Signal(captured: seq<Byte>, dev: Spec, m: Made): seq<real>
    requires ValidSpec(dev) && ValidMade(m)
  {
    Resampled(Layout(captured, dev, m.channels), m.channels, dev.rate, m.rate)
  }

  method ToLayout(raw: seq<Byte>, dev: Spec, ch: nat) returns (mapped: seq<real>)
    requires ValidSpec(dev) && ch > 0
    ensures mapped == Layout(raw, dev, ch)
  {
    var decoded := DecodePCM([], raw, dev);
    assert decoded == Decoded(raw, dev);
    mapped := MapChannels([], decoded, dev.channels, ch);
    assert mapped == Mapped(decoded, dev.channels, ch);
  }

  class OutboundStream {
    const kind: Kind
    var mode: Option<Mode>
    var profile: Profile
    var devRaw: Option<seq<Byte>>
    var dev: Spec
    var wireCh: nat
    var wireRate: nat
    var resampler: StreamResampler?
    var enc: OpusEncoder?
    var frameSamples: nat
    var pending: seq<real>

    ghost var captured: seq<Byte>   // whole device frames since the last configuration
    ghost var heard: nat            // ... and how many
    ghost var intact: bool          // no encoder error since then

    ghost predicate Live()
      reads this
    {
      resampler != null
    }

    ghost function MadeNow(): Made
      reads this
      requires mode.Some?
    {
      Made(mode.value, wireRate, wireCh)
    }

    /** Everything captured has been resampled as one signal. */
    ghost predicate InTune()
      reads `resampler, `dev, `wireCh, `wireRate, `captured, `heard, resampler
    {
      && resampler != null && resampler.Valid()
      && ValidSpec(dev) && wireCh > 0
      && resampler.channels == wireCh && resampler.src == dev.rate && resampler.dst == wireRate
      && |captured| == heard * dev.blockAlign
      && resampler.input == Layout(captured, dev, wireCh)
    }

    /** The blocks given to the encoder followed by `pending` are `signal`. */
    ghost predicate Packed(signal: seq<real>)
      reads `enc, `pending, `intact, `frameSamples, `wireCh, enc
    {
      && enc != null && frameSamples > 0
      && (intact ==> Flatten(enc.blocks) + pending == signal)
      && (forall i :: 0 <= i < |enc.blocks| ==> |enc.blocks[i]| == frameSamples * wireCh)
      && |pending| < frameSamples * wireCh
    }

    ghost predicate Valid()
      reads this, resampler, enc
    {
      && (devRaw.Some? <==> Live())
      && (Live() ==>
            && mode.Some? && ParseSpec(devRaw.value) == Some(dev) && ValidMade(MadeNow())
            && InTune()
            && (mode == Some(OpusMode) <==> enc != null)
            && (enc != null ==> wireRate == OPUS_RATE && frameSamples * 1000 == OPUS_RATE * FrameMs(profile))
            && (enc != null ==> Packed(resampler.output)))
    }

    constructor (kind: Kind)
      ensures Valid() && !Live() && this.kind == kind && resampler == null && enc == null
    {
      this.kind := kind;
      mode, devRaw, resampler, enc, pending := None, None, null, null, [];
      profile, wireCh, wireRate, frameSamples := Balanced, 0, 0, 0;
      dev := Spec(0, 0, 0, Pcm16);
      captured, heard, intact := [], 0, true;
    }

    /** configureLocked. `opusOk` says whether an encoder could be created; on an
        unusable device format nothing changes. */
    method Configure(want: Mode, profile: Profile, deviceFormat: seq<Byte>, opusOk: bool)
      returns (announced: Option<seq<Frame>>)
      requires Valid()
      modifies this
      ensures Valid()
      ensures announced == None <==> ParseSpec(deviceFormat) == None
      ensures announced == None ==> mode == old(mode) && resampler == old(resampler) && enc == old(enc)
                                    && pending == old(pending) && captured == old(captured)
                                    && wireRate == old(wireRate) && wireCh == old(wireCh)
      ensures announced.Some? ==>
                && Live() && fresh(resampler) && (enc != null ==> fresh(enc))
                && ValidSpec(ParseSpec(deviceFormat).value)
                && MadeNow() == Choose(kind, ParseSpec(deviceFormat).value, want == OpusMode && opusOk)
                && ValidMade(MadeNow())
                && announced.value == Announcement(kind, MadeNow())
                && captured == [] && pending == [] && intact
                && resampler.output == [] && (enc != null ==> enc.blocks == [])
                && this.profile == profile && (enc != null ==> frameSamples * 1000 == wireRate * FrameMs(profile))
    {
      var d := ParseSpec(deviceFormat);
      if d == None {
        return None;
      }
      ChoiceIsValid(kind, d.value, want == OpusMode && opusOk);
      Restart(d.value, deviceFormat, profile, want == OpusMode && opusOk);
      announced := Some(Announcement(kind, Made(mode.value, wireRate, wireCh)));
    }

    method Restart(d: Spec, deviceFormat: seq<Byte>, profile: Profile, opus: bool)
      requires ParseSpec(deviceFormat) == Some(d) && ValidMade(Choose(kind, d, opus))
      modifies this
      ensures Valid() && Live() && fresh(resampler) && (enc != null ==> fresh(enc))
      ensures MadeNow() == Choose(kind, d, opus) && dev == d && this.profile == profile
      ensures captured == [] && pending == [] && intact
      ensures resampler.output == [] && (enc != null ==> enc.blocks == [])
    {
      hide ParseSpec;
      hide OutboundStream.InTune;
      hide StreamResampler.Valid;
      hide FrameMap;
      hide Resampled;
      dev := d;
      devRaw := Some(deviceFormat);
      this.profile := profile;
      wireCh := if kind == Mic then 1 else Min(dev.channels, 2);
      pending, intact := [], true;
      enc := null;
      if opus {
        SetupOpus();
      } else {
        mode := Some(PcmMode);
        wireRate := Min(dev.rate, PCM_MAX_RATE);
      }
      StartResampler();
    }

    method SetupOpus()
      requires pending == [] && wireCh > 0
      modifies this`enc, this`wireRate, this`frameSamples, this`mode
      ensures fresh(enc) && enc != null && enc.blocks == [] && mode == Some(OpusMode)
      ensures wireRate == OPUS_RATE && frameSamples * 1000 == OPUS_RATE * FrameMs(profile) && frameSamples > 0
    {
      enc := new OpusEncoder();
      wireRate := OPUS_RATE;
      frameSamples := FrameSamples(profile);
      mode := Some(OpusMode);
    }

    method StartResampler()
      requires ValidSpec(dev) && wireCh > 0 && wireRate > 0
      modifies this`resampler, this`captured, this`heard
      ensures InTune() && fresh(resampler) && resampler.output == [] && captured == []
    {
      resampler := new StreamResampler(dev.rate, wireRate, wireCh);
      captured, heard := [], 0;
      LayoutEmpty(dev, wireCh);
    }

    /** Repeats the announcement with a fresh encoder; fails before the first Configure. */
    method Reannounce(opusOk: bool) returns (announced: Option<seq<Frame>>)
      requires Valid()
      modifies this
      ensures Valid() && (announced.Some? <==> old(devRaw).Some?)
      ensures announced.Some? ==>
                && Live() && ValidMade(MadeNow()) && announced.value == Announcement(kind, MadeNow())
                && MadeNow() == Choose(kind, old(dev), old(mode) == Some(OpusMode) && opusOk)
                && fresh(resampler) && (enc != null ==> fresh(enc) && enc.blocks == []) && captured == [] && pending == []
    {
      if devRaw == None {
        return None;
      }
      announced := Configure(mode.value, profile, devRaw.value, opusOk);
    }

    /** Switches transport or profile for the current device format. */
    method Reconfigure(want: Mode, profile: Profile, opusOk: bool) returns (announced: Option<seq<Frame>>)
      requires Valid()
      modifies this
      ensures Valid() && (announced.Some? <==> old(devRaw).Some?)
      ensures announced.Some? ==>
                && Live() && ValidMade(MadeNow()) && announced.value == Announcement(kind, MadeNow())
                && MadeNow() == Choose(kind, old(dev), want == OpusMode && opusOk)
                && fresh(resampler) && (enc != null ==> fresh(enc) && enc.blocks == []) && captured == [] && pending == []
    {
      if devRaw == None {
        return None;
      }
      announced := Configure(want, profile, devRaw.value, opusOk);
    }

    /** Process up to the resampler: the whole frames of one captured buffer join the
        signal; `made` is what they add to it. */
    method Take(raw: seq<Byte>) returns (made: seq<real>)
      requires InTune()
      modifies this`captured, this`heard, resampler
      ensures InTune() && resampler.output == old(resampler.output) + made
      ensures captured == old(captured) + Whole(raw, dev)
    {
      hide FrameMap;
      hide StreamResampler.Valid;
      var mapped := ToLayout(raw, dev, wireCh);
      made := resampler.Process([], mapped);
      LayoutWhole(captured, raw, dev, wireCh, heard);
      captured := captured + Whole(raw, dev);
      heard := heard + |raw| / dev.blockAlign;
    }

    /** The PCM half of Process: at most one frame, carrying every whole sample frame. */
    method PcmFrames(made: seq<real>, bits: real -> U32) returns (frames: seq<Frame>)
      requires mode.Some? && ValidMade(MadeNow())
      ensures |made| < wireCh ==> frames == []
      ensures |made| >= wireCh ==> frames == [Frame(DataMsg(kind), Encoded(made, WireSpec(MadeNow()), bits))]
    {
      if |made| < wireCh {
        return [];
      }
      var payload := EncodeNew(made, WireSpec(Made(mode.value, wireRate, wireCh)), bits);
      frames := [Frame(DataMsg(kind), payload)];
    }

    /** The Opus half of Process: whole blocks go to the encoder, the rest waits. */
    method Packetise(made: seq<real>, ghost signal: seq<real>) returns (frames: seq<Frame>, failed: bool)
      requires wireCh > 0 && Packed(signal)
      modifies this`pending, this`intact, enc
      ensures Packed(signal + made) && intact == (old(intact) && !failed)
      ensures old(enc.packets) <= enc.packets
      ensures frames == Carried(kind, enc.packets[|old(enc.packets)|..])
    {
      assert enc.packets[|enc.packets|..] == [];
      assert Flatten(enc.blocks) + pending + made == Flatten(enc.blocks) + (pending + made);
      pending := pending + made;
      var chunk := frameSamples * wireCh;
      assert chunk > 0;
      frames, failed := [], false;
      var consumed := 0;
      assert pending[consumed..] == pending;
      while |pending| - consumed >= chunk
        invariant consumed <= |pending| && intact == old(intact)
        invariant intact ==> Flatten(enc.blocks) + pending[consumed..] == signal + made
        invariant forall i :: 0 <= i < |enc.blocks| ==> |enc.blocks[i]| == chunk
        invariant old(enc.packets) <= enc.packets
        invariant frames == Carried(kind, enc.packets[|old(enc.packets)|..])
      {
        FlattenOneMore(enc.blocks, pending, consumed, chunk);
        ghost var before := enc.packets[|old(enc.packets)|..];
        var packet := enc.EncodeFloat32(pending[consumed..consumed + chunk]);
        assert enc.packets[|old(enc.packets)|..] == before + [packet];
        assert (before + [packet])[..|before|] == before;
        consumed := consumed + chunk;
        if packet == None {
          pending, intact := [], false;
          failed := true;
          return;
        }
        if packet.value != [] {
          frames := frames + [Frame(DataMsg(kind), packet.value)];
        }
      }
      pending := pending[consumed..];
    }

    /** Process: one captured buffer becomes zero or more data frames. In PCM they carry
        exactly what the buffer adds to the signal; in Opus they are the packets made
        from the blocks that became complete. */
    method Process(raw: seq<Byte>, bits: real -> U32) returns (frames: seq<Frame>, failed: bool, ghost made: seq<real>)
      requires Valid()
      modifies this, resampler, enc
      ensures Valid() && resampler == old(resampler) && enc == old(enc) && devRaw == old(devRaw) && dev == old(dev)
      ensures mode == old(mode) && wireRate == old(wireRate) && wireCh == old(wireCh)
      ensures intact == (old(intact) && !failed)
      ensures !Live() || |raw| < dev.blockAlign ==> frames == [] && !failed && captured == old(captured)
      ensures Live() && |raw| >= dev.blockAlign ==>
                && captured == old(captured) + Whole(raw, dev)
                && resampler.output == old(if resampler == null then [] else resampler.output) + made
                && (enc == null ==>
                      && !failed
                      && frames == (if |made| < wireCh then []
                                    else [Frame(DataMsg(kind), Encoded(made, WireSpec(MadeNow()), bits))]))
                && (enc != null ==>
                      && old(if enc == null then [] else enc.packets) <= enc.packets
                      && frames == Carried(kind, enc.packets[|old(if enc == null then [] else enc.packets)|..]))
    {
      hide StreamResampler.Valid;
      hide ParseSpec;
      hide OutboundStream.Packed;
      hide OutboundStream.InTune;
      frames, failed, made := [], false, [];
      if resampler == null || |raw| < dev.blockAlign {
        return;
      }
      ghost var signal := resampler.output;
      var more := Take(raw);
      made := more;
      if mode != Some(OpusMode) {
        frames := PcmFrames(more, bits);
      } else {
        frames, failed := Packetise(more, signal);
      }
    }

    /** Reset forgets the configuration. */
    method Reset()
      requires Valid()
      modifies this
      ensures Valid() && !Live() && devRaw == None && pending == [] && mode == None
    {
      devRaw, resampler, enc, pending, mode := None, null, null, [], None;
    }
  }

  lemma {:induction false} BatchLength(h: seq<real>, ch: nat, src: nat, dst: nat, k: nat)
    requires dst > 0 && AllReadable(h, ch, src, dst, k)
    ensures |Batch(h, ch, src, dst, k)| == k * ch
  {
    if k > 0 {
      assert AllReadable(h, ch, src, dst, k - 1);
      BatchLength(h, ch, src, dst, k - 1);
      assert k * ch == (k - 1) * ch + ch;
    }
  }

  /** The signal is always a whole number of wire frames, so no sample is ever left
      out of a PCM data frame. */
  lemma SignalWholeFrames(captured: seq<Byte>, dev: Spec, m: Made) returns (n: nat)
    requires ValidSpec(dev) && ValidMade(m)
    ensures |Signal(captured, dev, m)| == n * m.channels
  {
    var decoded, mapped := Decoded(captured, dev), Layout(captured, dev, m.channels);
    if dev.rate == m.rate {
      FrameMapLength(Mapper(dev.channels, m.channels), dev.channels, m.channels, decoded);
      n := |decoded| / dev.channels;
    } else {
      n := Due(|mapped| / m.channels, dev.rate, m.rate);
      DueAllReadable(mapped, m.channels, dev.rate, m.rate, n);
      BatchLength(WithSilence(mapped, m.channels), m.channels, dev.rate, m.rate, n);
    }
  }

  /** Desktop audio of one or two channels at up to 48 kHz is sent in PCM just as it was
      captured: not mixed, not resampled, sample for sample. */
  lemma PlainSignal(captured: seq<Byte>, dev: Spec)
    requires ValidSpec(dev) && dev.channels <= 2 && dev.rate <= 48000
    ensures ValidMade(Choose(Desktop, dev, false))
    ensures Signal(captured, dev, Choose(Desktop, dev, false)) == Decoded(captured, dev)
  {
    var decoded, n := Decoded(captured, dev), |captured| / dev.blockAlign;
    DecodedBounds(captured, dev);
    MappedSame(decoded, dev.channels, n);
    assert decoded[..n * dev.channels] == decoded;
  }

  /** Capture buffering is irrelevant: the signal on the wire, and with it the blocks
      given to the encoder followed by what still waits, is fixed by the device frames
      captured since the configuration. */
  lemma CutsIrrelevant(s: OutboundStream)
    requires s.Valid() && s.Live()
    ensures s.resampler.output == Signal(s.captured, s.dev, s.MadeNow())
    ensures s.enc != null && s.intact ==> Flatten(s.enc.blocks) + s.pending == Signal(s.captured, s.dev, s.MadeNow())
    ensures s.enc != null ==> && (forall i :: 0 <= i < |s.enc.blocks| ==> |s.enc.blocks[i]| == s.frameSamples * s.wireCh)
                              && |s.pending| < s.frameSamples * s.wireCh
                              && s.frameSamples * 1000 == OPUS_RATE * FrameMs(s.profile) && s.wireRate == OPUS_RATE
  {
  }

  /** The whole device frames of a list of captured buffers, end to end. */
  function AllWhole(buffers: seq<seq<Byte>>, dev: Spec): seq<Byte>
    requires ValidSpec(dev)
  {
    if buffers == [] then []
    else AllWhole(buffers[..|buffers| - 1], dev) + Whole(buffers[|buffers| - 1], dev)
  }

  /** Buffers of whole device frames are taken in full, wherever the cuts are. */
  lemma {:induction false} AllWholeIsFlat(buffers: seq<seq<Byte>>, dev: Spec)
    requires ValidSpec(dev) && forall i :: 0 <= i < |buffers| ==> |buffers[i]| % dev.blockAlign == 0
    ensures AllWhole(buffers, dev) == Flatten(buffers)
  {
    if buffers != [] {
      var n := |buffers| - 1;
      AllWholeIsFlat(buffers[..n], dev);
      WholeIsAll(buffers[n], dev);
    }
  }

  lemma WholeIsAll(raw: seq<Byte>, dev: Spec)
    requires ValidSpec(dev) && |raw| % dev.blockAlign == 0
    ensures Whole(raw, dev) == raw
  {
    assert |raw| == (|raw| / dev.blockAlign) * dev.blockAlign;
  }

  /** A capture from its configuration on, in any list of buffers: the signal is that of
      all whole device frames at once, and, if no call failed, the blocks given to the
      encoder followed by what still waits are that signal, cut into whole blocks. */
  method Capture(s: OutboundStream, buffers: seq<seq<Byte>>, bits: real -> U32) returns (failed: bool)
    requires s.Valid() && s.Live() && s.captured == [] && s.intact
    modifies s, s.resampler, s.enc
    ensures s.Valid() && s.Live() && s.dev == old(s.dev) && s.MadeNow() == old(s.MadeNow()) && s.enc == old(s.enc)
    ensures s.captured == AllWhole(buffers, s.dev)
    ensures s.resampler.output == Signal(AllWhole(buffers, s.dev), s.dev, s.MadeNow())
    ensures s.enc != null && !failed ==>
              && Flatten(s.enc.blocks) + s.pending == Signal(AllWhole(buffers, s.dev), s.dev, s.MadeNow())
              && (forall i :: 0 <= i < |s.enc.blocks| ==> |s.enc.blocks[i]| == s.frameSamples * s.wireCh)
              && |s.pending| < s.frameSamples * s.wireCh
  {
    failed := CaptureAll(s, buffers, bits);
    hide ValidSpec;
    hide Signal;
    hide Flatten;
    hide AllWhole;
    CutsIrrelevant(s);
  }

  method CaptureAll(s: OutboundStream, buffers: seq<seq<Byte>>, bits: real -> U32) returns (failed: bool)
    requires s.Valid() && s.Live() && s.captured == [] && s.intact
    modifies s, s.resampler, s.enc
    ensures s.Valid() && s.Live() && s.resampler == old(s.resampler) && s.enc == old(s.enc) && s.dev == old(s.dev)
    ensures s.mode == old(s.mode) && s.wireRate == old(s.wireRate) && s.wireCh == old(s.wireCh)
    ensures s.captured == AllWhole(buffers, s.dev) && s.intact == !failed
  {
    if buffers == [] {
      return false;
    }
    var n := |buffers| - 1;
    failed := CaptureAll(s, buffers[..n], bits);
    LiveSettings(s);
    hide *;
    var bad := CaptureOne(s, buffers[n], bits);
    OneMoreBuffer(buffers, n, s.dev);
    assert buffers[..n + 1] == buffers;
    failed := failed || bad;
  }

  lemma LiveSettings(s: OutboundStream)
    requires s.Valid() && s.Live()
    ensures ValidSpec(s.dev) && s.mode.Some? && ValidMade(s.MadeNow())
  {
  }

  method CaptureOne(s: OutboundStream, raw: seq<Byte>, bits: real -> U32) returns (failed: bool)
    requires s.Valid() && s.Live() && ValidSpec(s.dev)
    modifies s, s.resampler, s.enc
    ensures s.Valid() && s.Live() && s.resampler == old(s.resampler) && s.enc == old(s.enc) && s.dev == old(s.dev)
    ensures s.mode == old(s.mode) && s.wireRate == old(s.wireRate) && s.wireCh == old(s.wireCh)
    ensures s.captured == old(s.captured) + Whole(raw, s.dev) && s.intact == (old(s.intact) && !failed)
  {
    hide OutboundStream.Valid;
    hide ValidSpec;
    WholeOfShort(raw, s.dev);
    var frames;
    ghost var made;
    frames, failed, made := s.Process(raw, bits);
  }

  lemma WholeOfShort(raw: seq<Byte>, dev: Spec)
    requires ValidSpec(dev)
    ensures |raw| < dev.blockAlign ==> Whole(raw, dev) == []
  {
    if |raw| < dev.blockAlign {
      DivUnique(|raw|, dev.blockAlign, 0);
    }
  }

  lemma OneMoreBuffer(buffers: seq<seq<Byte>>, n: nat, dev: Spec)
    requires ValidSpec(dev) && n < |buffers|
    ensures AllWhole(buffers[..n + 1], dev) == AllWhole(buffers[..n], dev) + Whole(buffers[n], dev)
  {
    assert buffers[..n + 1][..n] == buffers[..n];
  }
}
