/** Message payloads (internal/protocol/protocol.go): every codec inverts, and exactly on
    which payloads. Text is the bytes of a Go string. */
module Codecs {
  import opened Bytes
  import opened Options
  import opened RemoteInput
  import MouseLane

  type Text = seq<Byte>

  const NEWLINE: Byte := 10

  lemma Two(a: seq<Byte>, b: seq<Byte>)
    requires |a| == 4 && |b| == 4
    ensures (a + b)[0..4] == a && (a + b)[4..8] == b
  {
  }

  lemma Three(a: seq<Byte>, b: seq<Byte>, c: seq<Byte>)
    requires |a| == 4 && |b| == 4 && |c| == 4
    ensures var s := a + b + c; s[0..4] == a && s[4..8] == b && s[8..12] == c
  {
  }

  lemma Digits4(v: U32)
    ensures |PutU32(v)| == 4 && GetU32(PutU32(v)) == v
  {
    assert PutU32(v) + [] == PutU32(v);
    U32RoundTrip(v, []);
  }

  // Mouse moves

  function EncodeMove(m: MouseLane.Move): seq<Byte> {
    MouseLane.MoveFrame(m).payload
  }

  function DecodeMove(b: seq<Byte>): Option<MouseLane.Move> {
    if |b| != 8 then None else Some(MouseLane.Move(AsI32(GetU32(b[0..4])), AsI32(GetU32(b[4..8]))))
  }

  /** Both ways: all moves round-trip, and all 8-byte payloads do. */
  lemma MoveCodec(m: MouseLane.Move, b: seq<Byte>)
    ensures DecodeMove(EncodeMove(m)) == Some(m)
    ensures DecodeMove(b) == Some(m) <==> b == EncodeMove(m)
    ensures DecodeMove(b) == None <==> |b| != 8
  {
    Digits4(AsU32(m.dx));
    Digits4(AsU32(m.dy));
    Two(PutU32(AsU32(m.dx)), PutU32(AsU32(m.dy)));
    if |b| == 8 {
      U32Unique(b[0..4]);
      U32Unique(b[4..8]);
      assert b == b[0..4] + b[4..8];
      SignedBits(GetU32(b[0..4]), m.dx);
      SignedBits(GetU32(b[4..8]), m.dy);
    }
  }

  lemma SignedBits(u: U32, i: I32)
    ensures AsI32(AsU32(i)) == i && (AsI32(u) == i <==> u == AsU32(i))
  {
  }

  // Scrolls and single words

  /** A signed word: the scroll distance. */
  function EncodeScroll(delta: I32): seq<Byte> {
    PutU32(AsU32(delta))
  }

  function DecodeScroll(b: seq<Byte>): Option<I32> {
    if |b| != 4 then None else Some(AsI32(GetU32(b)))
  }

  lemma ScrollCodec(delta: I32, b: seq<Byte>)
    ensures DecodeScroll(EncodeScroll(delta)) == Some(delta)
    ensures DecodeScroll(b) == Some(delta) <==> b == EncodeScroll(delta)
  {
    Digits4(AsU32(delta));
    if |b| == 4 {
      U32Unique(b);
      SignedBits(GetU32(b), delta);
    }
  }

  // Keys

  function EncodeKey(m: KeyMsg): seq<Byte> {
    PutU32(m.vk) + PutU32(m.scan) + PutU32(m.flags)
  }

  function DecodeKey(b: seq<Byte>): Option<KeyMsg> {
    if |b| != 12 then None else Some(KeyMsg(GetU32(b[0..4]), GetU32(b[4..8]), GetU32(b[8..12])))
  }

  lemma KeyCodec(m: KeyMsg, b: seq<Byte>)
    ensures DecodeKey(EncodeKey(m)) == Some(m)
    ensures DecodeKey(b) == Some(m) <==> b == EncodeKey(m)
  {
    Digits4(m.vk);
    Digits4(m.scan);
    Digits4(m.flags);
    Three(PutU32(m.vk), PutU32(m.scan), PutU32(m.flags));
    if |b| == 12 {
      U32Unique(b[0..4]);
      U32Unique(b[4..8]);
      U32Unique(b[8..12]);
      assert b == b[0..4] + b[4..8] + b[8..12];
    }
  }

  // Clicks

  datatype Click = Click(button: Byte, pressed: bool)

  function EncodeClick(m: Click): seq<Byte> {
    [m.button, if m.pressed then 1 else 0]
  }

  function DecodeClick(b: seq<Byte>): Option<Click> {
    if |b| != 2 then None else Some(Click(b[0], b[1] == 1))
  }

  /** Every click round-trips; a payload does so exactly if its second byte is 0 or 1. */
  lemma ClickCodec(m: Click, b: seq<Byte>)
    requires |b| == 2
    ensures DecodeClick(EncodeClick(m)) == Some(m)
    ensures EncodeClick(DecodeClick(b).value) == b <==> b[1] == 0 || b[1] == 1
  {
    var e := EncodeClick(DecodeClick(b).value);
    assert e[0] == b[0] && e[1] == (if b[1] == 1 then 1 else 0);
    assert b == [b[0], b[1]];
  }

  // Clipboard

  datatype ClipboardSync = ClipboardSync(n: U32, text: Text)

  function EncodeClipboard(m: ClipboardSync): seq<Byte> {
    PutU32(m.n) + m.text
  }

  function DecodeClipboard(b: seq<Byte>): Option<ClipboardSync> {
    if |b| < 4 then None else Some(ClipboardSync(GetU32(b), b[4..]))
  }

  lemma ClipboardCodec(m: ClipboardSync, b: seq<Byte>)
    ensures DecodeClipboard(EncodeClipboard(m)) == Some(m)
    ensures DecodeClipboard(b) == Some(m) <==> b == EncodeClipboard(m)
  {
    U32RoundTrip(m.n, m.text);
    assert EncodeClipboard(m)[4..] == m.text;
    if |b| >= 4 {
      U32Unique(b[..4]);
      assert b == b[..4] + b[4..];
      assert GetU32(b[..4]) == GetU32(b);
    }
  }

  // Hello

  datatype Hello = Hello(deviceId: Text, name: Text, fingerprint: Text, pairingCode: Text)

  function EncodeHello(m: Hello): seq<Byte> {
    m.deviceId + [NEWLINE] + m.name + [NEWLINE] + m.fingerprint
    + (if m.pairingCode != [] then [NEWLINE] + m.pairingCode else [])
  }

  /** Length of the text before the first newline. */
  function LineLength(s: Text): (n: nat)
    ensures n <= |s| && (n < |s| ==> s[n] == NEWLINE) && NEWLINE !in s[..n]
  {
    if s == [] || s[0] == NEWLINE then 0
    else
      var n := LineLength(s[1..]);
      assert s[..n + 1] == [s[0]] + s[1..][..n];
      n + 1
  }

  /** strings.SplitN(s, "\n", n). */
  function SplitN(s: Text, n: nat): (parts: seq<Text>)
    requires n >= 1
    ensures 1 <= |parts| <= n
  {
    var k := LineLength(s);
    if n == 1 || k == |s| then [s] else [s[..k]] + SplitN(s[k + 1..], n - 1)
  }

  function DecodeHello(b: seq<Byte>): Option<Hello> {
    var parts := SplitN(b, 4);
    if |parts| != 3 && |parts| != 4 then None
    else Some(Hello(parts[0], parts[1], parts[2], if |parts| > 3 then parts[3] else []))
  }

  lemma {:induction false} LineThen(a: Text, rest: Text)
    requires NEWLINE !in a
    ensures LineLength(a + [NEWLINE] + rest) == |a|
  {
    var s := a + [NEWLINE] + rest;
    if a != [] {
      assert s[1..] == a[1..] + [NEWLINE] + rest;
      LineThen(a[1..], rest);
    }
  }

  lemma {:induction false} NoLine(s: Text)
    requires NEWLINE !in s
    ensures LineLength(s) == |s|
  {
    if s != [] {
      NoLine(s[1..]);
    }
  }

  /** One field and the rest. */
  lemma SplitField(a: Text, rest: Text, n: nat)
    requires NEWLINE !in a && n >= 2
    ensures SplitN(a + [NEWLINE] + rest, n) == [a] + SplitN(rest, n - 1)
  {
    LineThen(a, rest);
    var s := a + [NEWLINE] + rest;
    assert s[..|a|] == a && s[|a| + 1..] == rest;
  }

  lemma SplitLast(s: Text, n: nat)
    requires n >= 1 && (n == 1 || NEWLINE !in s)
    ensures SplitN(s, n) == [s]
  {
    if n > 1 {
      NoLine(s);
    }
  }

  /** The first parts of a split contain no newline. */
  lemma {:induction false} SplitParts(s: Text, n: nat, i: nat)
    requires n >= 1 && i < |SplitN(s, n)| && i < n - 1
    ensures NEWLINE !in SplitN(s, n)[i]
  {
    var k := LineLength(s);
    if k == |s| {
      assert s[..k] == s;
    } else if i > 0 {
      SplitParts(s[k + 1..], n - 1, i - 1);
    }
  }

  predicate Plain(m: Hello) {
    NEWLINE !in m.deviceId && NEWLINE !in m.name && NEWLINE !in m.fingerprint
  }

  lemma HelloShape(m: Hello)
    ensures EncodeHello(m) == m.deviceId + [NEWLINE] + (m.name + [NEWLINE] + HelloTail(m))
  {
    var a, b, c := m.deviceId, m.name, HelloTail(m);
    assert a + [NEWLINE] + b + [NEWLINE] + c == a + [NEWLINE] + (b + [NEWLINE] + c);
    var code := if m.pairingCode != [] then [NEWLINE] + m.pairingCode else [];
    var head := a + [NEWLINE] + b + [NEWLINE];
    assert (head + m.fingerprint) + code == head + (m.fingerprint + code);
    if m.pairingCode != [] {
      assert m.fingerprint + ([NEWLINE] + m.pairingCode) == m.fingerprint + [NEWLINE] + m.pairingCode;
    }
  }

  function HelloTail(m: Hello): Text {
    if m.pairingCode != [] then m.fingerprint + [NEWLINE] + m.pairingCode else m.fingerprint
  }

  lemma HelloSplits(m: Hello)
    requires Plain(m)
    ensures SplitN(EncodeHello(m), 4)
         == [m.deviceId] + ([m.name] + (if m.pairingCode != [] then [m.fingerprint] + [m.pairingCode] else [m.fingerprint]))
  {
    HelloShape(m);
    SplitField(m.deviceId, m.name + [NEWLINE] + HelloTail(m), 4);
    SplitField(m.name, HelloTail(m), 3);
    if m.pairingCode != [] {
      SplitField(m.fingerprint, m.pairingCode, 2);
      SplitLast(m.pairingCode, 1);
    } else {
      SplitLast(m.fingerprint, 2);
    }
  }

  /** A hello is decoded as it was encoded exactly when its first three fields contain no
      newline; the pairing code may. */
  lemma HelloRoundTrip(m: Hello)
    ensures DecodeHello(EncodeHello(m)) == Some(m) <==> Plain(m)
  {
    if Plain(m) {
      HelloSplits(m);
    } else if DecodeHello(EncodeHello(m)) == Some(m) {
      SplitParts(EncodeHello(m), 4, 0);
      SplitParts(EncodeHello(m), 4, 1);
      SplitParts(EncodeHello(m), 4, 2);
    }
  }
}
