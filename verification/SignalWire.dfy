// Signal requests on the wire. Between two fixed parts they carry two
// terminated strings, and a list of arguments at the end.

module SignalWire {
  import opened Types
  import opened WireBytes
  import opened Encoders
  import opened RequestWire

  const REQ_SIGNAL_TUNING := 4
  const REQ_SIGNAL_UNTUNING := 5
  const REQ_SIGNAL_RELAY := 6

  datatype WireSignal = WireSignal(kind: int, code: nat, sigType: nat, handle: int, duration: int,
                                   appName: seq<Byte>, scenario: seq<Byte>, properties: int, pid: int, tid: int,
                                   args: seq<int>)

  // ---- The format ----

  function FrontBytes(m: WireSignal): seq<Byte> {
    Bytes(1, MOD_RESTUNE)
      + (Bytes(1, m.kind) + (Bytes(4, m.code) + (Bytes(4, m.sigType) + (Bytes(8, m.handle) + Bytes(8, m.duration)))))
  }

  function StringBytes(text: seq<Byte>): seq<Byte> {
    text + [0]
  }

  function MiddleBytes(m: WireSignal): seq<Byte> {
    Bytes(4, |m.args|) + (Bytes(4, m.properties) + (Bytes(4, m.pid) + Bytes(4, m.tid)))
  }

  function SignalBytes(m: WireSignal): seq<Byte> {
    FrontBytes(m) + (StringBytes(m.appName) + (StringBytes(m.scenario) + (MiddleBytes(m) + ValueBytes(m.args))))
  }

  // ---- Decoding ----

  datatype SignalResult = Decoded(signal: WireSignal) | DeserializationFailure | PastTheEnd

  function ReadArgs(n: int, s: seq<Byte>): Option<seq<int>>
    decreases n
  {
    if n <= 0 then Some([])
    else
      match ReadNat(4, s)
      case None => None
      case Some(v) =>
        match ReadArgs(n - 1, v.rest)
        case None => None
        case Some(vs) => Some([v.value] + vs)
  }

  const FRONT_SIZE := 26
  const MIDDLE_SIZE := 16

  function DecodeFront(s: seq<Byte>): WireSignal
    requires |s| >= FRONT_SIZE
  {
    WireSignal(Signed(s[1..2]), Unsigned(s[2..6]), Unsigned(s[6..10]), Signed(s[10..18]), Signed(s[18..26]), [], [], 0,
               0, 0, [])
  }

  function DecodeBack(m: WireSignal, s: seq<Byte>): SignalResult {
    if |s| < MIDDLE_SIZE then PastTheEnd
    else
      var numArgs := Signed(s[..4]);
      if numArgs < 0 then DeserializationFailure
      else
        match ReadArgs(numArgs, s[16..])
        case None => PastTheEnd
        case Some(args) =>
          Decoded(m.(properties := Signed(s[4..8]), pid := Signed(s[8..12]), tid := Signed(s[12..16]), args := args))
  }

  function DecodeSignal(s: seq<Byte>): SignalResult {
    if |s| < FRONT_SIZE then PastTheEnd
    else
      match ReadString(s[FRONT_SIZE..])
      case None => PastTheEnd
      case Some(app) =>
        match ReadString(app.rest)
        case None => PastTheEnd
        case Some(scenario) => DecodeBack(DecodeFront(s).(appName := app.value, scenario := scenario.value),
                                          scenario.rest)
  }

  // ---- Round trip ----

  predicate WellFormedSignal(m: WireSignal) {
    && FitsInt(1, m.kind) && FitsNat(4, m.code) && FitsNat(4, m.sigType) && FitsInt(8, m.handle)
      && FitsInt(8, m.duration)
    && 0 !in m.appName && 0 !in m.scenario
    && FitsInt(4, |m.args|) && FitsInt(4, m.properties) && FitsInt(4, m.pid) && FitsInt(4, m.tid)
    && forall i :: 0 <= i < |m.args| ==> FitsNat(4, m.args[i])
  }

  lemma ReadArgsStep(n: int, s: seq<Byte>, v: nat, rest: seq<Byte>, vs: seq<int>)
    requires n > 0 && ReadNat(4, s) == Some(Read(v, rest)) && ReadArgs(n - 1, rest) == Some(vs)
    ensures ReadArgs(n, s) == Some([v] + vs)
  {
  }

  lemma {:induction false} ArgsReadBack(vs: seq<int>, t: seq<Byte>)
    requires forall i :: 0 <= i < |vs| ==> FitsNat(4, vs[i])
    ensures ReadArgs(|vs|, ValueBytes(vs) + t) == Some(vs)
  {
    if vs != [] {
      var b, tail := Bytes(4, vs[0]), ValueBytes(vs[1..]);
      ArgsReadBack(vs[1..], t);
      ValueBytesFirst(vs);
      Regrouped(b, tail, t);
      assert FitsNat(4, vs[0]);
      ReadsBack(4, vs[0], tail + t);
      ReadArgsStep(|vs|, ValueBytes(vs) + t, vs[0], tail + t, vs[1..]);
      assert [vs[0]] + vs[1..] == vs;
    }
  }

  lemma FrontSlices(b1: seq<Byte>, b2: seq<Byte>, b3: seq<Byte>, b4: seq<Byte>, b5: seq<Byte>, b6: seq<Byte>,
                    t: seq<Byte>)
    requires |b1| == |b2| == 1 && |b3| == |b4| == 4 && |b5| == |b6| == 8
    ensures var s := (b1 + (b2 + (b3 + (b4 + (b5 + b6))))) + t;
      && |s| >= FRONT_SIZE && s[FRONT_SIZE..] == t
      && s[1..2] == b2 && s[2..6] == b3 && s[6..10] == b4 && s[10..18] == b5 && s[18..26] == b6
  {
  }

  lemma FrontReadsBack(m: WireSignal, t: seq<Byte>)
    requires WellFormedSignal(m)
    ensures var s := FrontBytes(m) + t;
      && |s| >= FRONT_SIZE && s[FRONT_SIZE..] == t
      && DecodeFront(s) == m.(appName := [], scenario := [], properties := 0, pid := 0, tid := 0, args := [])
  {
    FrontSlices(Bytes(1, MOD_RESTUNE), Bytes(1, m.kind), Bytes(4, m.code), Bytes(4, m.sigType), Bytes(8, m.handle),
                Bytes(8, m.duration), t);
    SignedBytes(1, m.kind);
    UnsignedBytesExact(4, m.code);
    UnsignedBytesExact(4, m.sigType);
    SignedBytes(8, m.handle);
    SignedBytes(8, m.duration);
  }

  lemma BackReadsBack(m: WireSignal, front: WireSignal, t: seq<Byte>)
    requires WellFormedSignal(m) && front == m.(properties := 0, pid := 0, tid := 0, args := [])
    ensures DecodeBack(front, (MiddleBytes(m) + ValueBytes(m.args)) + t) == Decoded(m)
  {
    var b1, b2, b3, b4 := Bytes(4, |m.args|), Bytes(4, m.properties), Bytes(4, m.pid), Bytes(4, m.tid);
    MiddleRegroup(b1, b2, b3, b4, ValueBytes(m.args), t);
    FourParts(b1, b2, b3, b4, ValueBytes(m.args) + t);
    ArgsReadBack(m.args, t);
    SignedBytes(4, |m.args|);
    SignedBytes(4, m.properties);
    SignedBytes(4, m.pid);
    SignedBytes(4, m.tid);
  }

  lemma MiddleRegroup(a: seq<Byte>, b: seq<Byte>, c: seq<Byte>, d: seq<Byte>, v: seq<Byte>, t: seq<Byte>)
    ensures ((a + (b + (c + d))) + v) + t == a + (b + (c + (d + (v + t))))
  {
    Regrouped(a + (b + (c + d)), v, t);
    RegroupFive(a, b, c, [], d, v + t);
    assert [] + d == d && [] + (d + (v + t)) == d + (v + t);
  }

  lemma StringsReadBack(app: seq<Byte>, scenario: seq<Byte>, t: seq<Byte>)
    requires 0 !in app && 0 !in scenario
    ensures ReadString(StringBytes(app) + (StringBytes(scenario) + t)) == Some(Read(app, StringBytes(scenario) + t))
    ensures ReadString(StringBytes(scenario) + t) == Some(Read(scenario, t))
  {
    StringReadsBack(app, StringBytes(scenario) + t);
    StringReadsBack(scenario, t);
  }

  // Decoding an encoded signal gives it back, whatever follows in the buffer.
  lemma SignalRoundTrip(m: WireSignal, t: seq<Byte>)
    requires WellFormedSignal(m)
    ensures DecodeSignal(SignalBytes(m) + t) == Decoded(m)
  {
    var back := MiddleBytes(m) + ValueBytes(m.args);
    var a, b := StringBytes(m.appName), StringBytes(m.scenario);
    Regrouped(FrontBytes(m), a + (b + back), t);
    Regrouped(a, b + back, t);
    Regrouped(b, back, t);
    FrontReadsBack(m, a + (b + (back + t)));
    StringsReadBack(m.appName, m.scenario, back + t);
    BackReadsBack(m, m.(properties := 0, pid := 0, tid := 0, args := []), t);
  }

  // ---- The client's side ----

  predicate ValidTuneSignal(duration: Int64, properties: Int32, numArgs: Int32, list: Option<seq<UInt32>>) {
    duration >= -1 && numArgs >= 0 && (list.Some? ==> numArgs != 0) && properties >= 0
  }

  function Args(numArgs: Int32, list: Option<seq<UInt32>>): seq<UInt32>
    requires numArgs > 0 ==> list.Some? && numArgs <= |list.value|
  {
    if numArgs > 0 then list.value[..numArgs] else []
  }

  method EncodeString(batch: FlatBuffEncoder, text: seq<Byte>)
    requires batch.Valid()
    modifies batch`cur, batch`runningIndex, batch.buffer
    ensures batch.Valid() && batch.Content() == Put(old(batch.Content()), StringBytes(text))
  {
    ghost var c := batch.Content();
    PutNothing(c);
    for i := 0 to |text|
      invariant batch.Valid() && batch.buffer == old(batch.buffer)
      invariant batch.Content() == Put(c, text[..i])
    {
      batch.Append([text[i]]);
      PutTwice(c, text[..i], [text[i]]);
      assert text[..i + 1] == text[..i] + [text[i]];
    }
    assert text[..|text|] == text;
    batch.Append([0]);
    PutTwice(c, text, [0]);
  }

  method EncodeFront(batch: FlatBuffEncoder, m: WireSignal)
    requires batch.Valid()
    modifies batch`cur, batch`runningIndex, batch.buffer
    ensures batch.Valid() && batch.Content() == Put(old(batch.Content()), FrontBytes(m))
  {
    ghost var c := batch.Content();
    batch.Append(Bytes(1, MOD_RESTUNE));
    batch.Append(Bytes(1, m.kind));
    batch.Append(Bytes(4, m.code));
    batch.Append(Bytes(4, m.sigType));
    batch.Append(Bytes(8, m.handle));
    batch.Append(Bytes(8, m.duration));
    var last := Bytes(4, m.code) + (Bytes(4, m.sigType) + (Bytes(8, m.handle) + Bytes(8, m.duration)));
    ghost var d := Put(Put(c, Bytes(1, MOD_RESTUNE)), Bytes(1, m.kind));
    PutTwice(Put(Put(d, Bytes(4, m.code)), Bytes(4, m.sigType)), Bytes(8, m.handle), Bytes(8, m.duration));
    PutTwice(Put(d, Bytes(4, m.code)), Bytes(4, m.sigType), Bytes(8, m.handle) + Bytes(8, m.duration));
    PutTwice(d, Bytes(4, m.code), Bytes(4, m.sigType) + (Bytes(8, m.handle) + Bytes(8, m.duration)));
    PutTwice(Put(c, Bytes(1, MOD_RESTUNE)), Bytes(1, m.kind), last);
    PutTwice(c, Bytes(1, MOD_RESTUNE), Bytes(1, m.kind) + last);
  }

  method EncodeMiddle(batch: FlatBuffEncoder, m: WireSignal)
    requires batch.Valid()
    modifies batch`cur, batch`runningIndex, batch.buffer
    ensures batch.Valid() && batch.Content() == Put(old(batch.Content()), MiddleBytes(m))
  {
    ghost var c := batch.Content();
    batch.Append(Bytes(4, |m.args|));
    batch.Append(Bytes(4, m.properties));
    batch.Append(Bytes(4, m.pid));
    batch.Append(Bytes(4, m.tid));
    PutTwice(Put(Put(c, Bytes(4, |m.args|)), Bytes(4, m.properties)), Bytes(4, m.pid), Bytes(4, m.tid));
    PutTwice(Put(c, Bytes(4, |m.args|)), Bytes(4, m.properties), Bytes(4, m.pid) + Bytes(4, m.tid));
    PutTwice(c, Bytes(4, |m.args|), Bytes(4, m.properties) + (Bytes(4, m.pid) + Bytes(4, m.tid)));
  }

  method EncodeArgs(batch: FlatBuffEncoder, args: seq<UInt32>)
    requires batch.Valid()
    modifies batch`cur, batch`runningIndex, batch.buffer
    ensures batch.Valid() && batch.Content() == Put(old(batch.Content()), ValueBytes(args))
  {
    ghost var c := batch.Content();
    PutNothing(c);
    for j := 0 to |args|
      invariant batch.Valid() && batch.buffer == old(batch.buffer)
      invariant batch.Content() == Put(c, ValueBytes(args[..j]))
    {
      batch.Append(Bytes(4, args[j]));
      PutTwice(c, ValueBytes(args[..j]), Bytes(4, args[j]));
      ValueBytesAppend(args, j);
    }
    assert args[..|args|] == args;
  }

  method SendSignal(batch: FlatBuffEncoder, m: WireSignal, args: seq<UInt32>) returns (sent: Option<seq<Byte>>)
    requires m.args == args
    modifies batch
    ensures sent == Sent(SignalBytes(m))
  {
    var buf := NewBuffer(batch);
    EncodeFront(batch, m);
    EncodeString(batch, m.appName);
    EncodeString(batch, m.scenario);
    EncodeMiddle(batch, m);
    EncodeArgs(batch, args);
    PutFive(Some([]), FrontBytes(m), StringBytes(m.appName), StringBytes(m.scenario), MiddleBytes(m),
            ValueBytes(m.args));
    sent := SendIfSane(batch, buf, SignalBytes(m));
  }

  // r says what the caller of a signal said, field by field; arguments count
  // only if there are some.
  predicate SaysSignal(r: WireSignal, kind: int, code: UInt32, sigType: UInt32, duration: Int64, properties: Int32,
                       appName: seq<Byte>, scenario: seq<Byte>, args: seq<UInt32>, pid: Int32, tid: Int32) {
    && r.kind == kind && r.code == code && r.sigType == sigType && r.handle == 0 && r.duration == duration
    && r.appName == appName && r.scenario == scenario && r.properties == properties && r.pid == pid && r.tid == tid
    && |r.args| == |args| && forall i :: 0 <= i < |args| ==> r.args[i] == args[i]
  }

  // The length of such a request: 42 bytes of numbers, two terminated strings
  // and the arguments.
  function SignalLength(appName: seq<Byte>, scenario: seq<Byte>, numArgs: nat): nat {
    42 + (|appName| + 1) + (|scenario| + 1) + 4 * numArgs
  }

  // Tuning and relaying a signal differ in the request type only. What the
  // server decodes is what the caller said.
  method TuneSignal(batch: FlatBuffEncoder, kind: int, code: UInt32, sigType: UInt32, duration: Int64,
                    properties: Int32, appName: seq<Byte>, scenario: seq<Byte>, numArgs: Int32,
                    list: Option<seq<UInt32>>, pid: Int32, tid: Int32)
    returns (sent: Option<seq<Byte>>)
    requires kind == REQ_SIGNAL_TUNING || kind == REQ_SIGNAL_RELAY
    requires numArgs > 0 ==> list.Some? && numArgs <= |list.value|
    modifies batch
    ensures sent == if ValidTuneSignal(duration, properties, numArgs, list)
                    then Sent(SignalBytes(WireSignal(kind, code, sigType, 0, duration, appName, scenario, properties,
                                                     pid, tid, Args(numArgs, list))))
                    else None
    ensures sent.Some? <==> ValidTuneSignal(duration, properties, numArgs, list)
                            && SignalLength(appName, scenario, numArgs) < REQ_BUFFER_SIZE
    ensures sent.Some? && 0 !in appName && 0 !in scenario ==>
              var args := if numArgs > 0 then list.value[..numArgs] else [];
              && DecodeSignal(sent.value).Decoded?
              && SaysSignal(DecodeSignal(sent.value).signal, kind, code, sigType, duration, properties, appName,
                            scenario, args, pid, tid)
  {
    if duration < -1 || numArgs < 0 || (list.Some? && numArgs == 0) {
      return None;
    }
    if !(properties >= 0) {
      return None;
    }
    var args := Args(numArgs, list);
    SignalSent(kind, code, sigType, duration, properties, appName, scenario, args, pid, tid);
    if 0 !in appName && 0 !in scenario {
      SignalArrives(kind, code, sigType, duration, properties, appName, scenario, args, pid, tid);
    }
    sent := SendSignal(batch, WireSignal(kind, code, sigType, 0, duration, appName, scenario, properties, pid, tid,
                                         args), args);
  }

  method UntuneSignal(batch: FlatBuffEncoder, handle: Int64, pid: Int32, tid: Int32) returns (sent: Option<seq<Byte>>)
    modifies batch
    ensures sent == if handle > 0
         then Sent(SignalBytes(WireSignal(REQ_SIGNAL_UNTUNING, 0, 0, handle, -1, [], [], 0, pid, tid, []))) else None
  {
    if handle <= 0 {
      return None;
    }
    sent := SendSignal(batch, WireSignal(REQ_SIGNAL_UNTUNING, 0, 0, handle, -1, [], [], 0, pid, tid, []), []);
  }

  // ---- The server's side ----

  // Scanning on from the cursor, behind what was scanned, gives the string.
  ghost predicate StringToRead(s: seq<Byte>, at: nat, done: seq<Byte>, r: Read<seq<Byte>>) {
    && at < |s| && ReadString(s[at..]).Some?
    && r.value == done + ReadString(s[at..]).value.value && r.rest == ReadString(s[at..]).value.rest
  }

  lemma StringBegins(s: seq<Byte>, at: nat)
    requires at <= |s| && ReadString(s[at..]).Some?
    ensures StringToRead(s, at, [], ReadString(s[at..]).value)
  {
    var r := ReadString(s[at..]).value;
    assert [] + r.value == r.value;
  }

  lemma StringGoesOn(s: seq<Byte>, at: nat, done: seq<Byte>, r: Read<seq<Byte>>)
    requires StringToRead(s, at, done, r)
    ensures s[at] == 0 ==> r == Read(done, s[at + 1..])
    ensures s[at] != 0 ==> StringToRead(s, at + 1, done + [s[at]], r)
  {
    assert s[at..][1..] == s[at + 1..];
    if s[at] == 0 {
      assert done + [] == done;
    } else {
      var rest := ReadString(s[at + 1..]).value.value;
      assert done + ([s[at]] + rest) == (done + [s[at]]) + rest;
    }
  }

  // Scans a string up to its terminator.
  method ScanString(buf: array<Byte>, start: nat) returns (text: seq<Byte>, next: nat)
    requires start <= buf.Length && ReadString(buf[start..]).Some?
    ensures start < next <= buf.Length && ReadString(buf[start..]) == Some(Read(text, buf[next..]))
  {
    text, next := [], start;
    ghost var s := buf[..];
    assert s[start..] == buf[start..];
    ghost var r := ReadString(buf[start..]).value;
    StringBegins(s, start);
    while buf[next] != 0
      invariant start <= next < buf.Length && StringToRead(s, next, text, r)
      decreases buf.Length - next
    {
      StringGoesOn(s, next, text, r);
      text := text + [buf[next]];
      next := next + 1;
    }
    StringGoesOn(s, next, text, r);
    next := next + 1;
    assert s[next..] == buf[next..];
  }

  method DecodeArgs(buf: array<Byte>, start: nat, n: int) returns (args: seq<int>)
    requires start <= buf.Length && ReadArgs(n, buf[start..]).Some?
    ensures ReadArgs(n, buf[start..]) == Some(args)
  {
    args := [];
    var j, cur := 0, start;
    ghost var all := ReadArgs(n, buf[start..]).value;
    assert all == [] + all;
    while j < n
      invariant 0 <= j && (j <= n || j == 0) && start <= cur
      invariant ArgsToRead(buf, cur, n - j, args, all)
      decreases n - j
    {
      var v := DecodeNextArg(buf, cur, n - j, args, all);
      args := args + [v];
      cur := cur + 4;
      j := j + 1;
    }
    assert args + [] == args;
  }

  ghost predicate ArgsToRead(buf: array<Byte>, cur: nat, left: int, done: seq<int>, all: seq<int>)
    reads buf
  {
    cur <= buf.Length && ReadArgs(left, buf[cur..]).Some? && all == done + ReadArgs(left, buf[cur..]).value
  }

  method DecodeNextArg(buf: array<Byte>, cur: nat, left: int, ghost done: seq<int>, ghost all: seq<int>)
    returns (v: int)
    requires left > 0 && ArgsToRead(buf, cur, left, done, all)
    ensures ArgsToRead(buf, cur + 4, left - 1, done + [v], all)
  {
    v := Unsigned(buf[cur..cur + 4]);
    ghost var s := buf[cur..];
    assert s[..4] == buf[cur..cur + 4] && s[4..] == buf[cur + 4..];
    ghost var rest := ReadArgs(left - 1, buf[cur + 4..]).value;
    assert done + ([v] + rest) == (done + [v]) + rest;
  }

  class Signal {
    var reqType: int
    var signalCode: nat
    var signalType: nat
    var handle: int
    var duration: int
    var appName: seq<Byte>
    var scenario: seq<Byte>
    var numArgs: int
    var properties: int
    var clientPid: int
    var clientTid: int
    var listArgs: seq<int>

    constructor ()
    {
      reqType, signalCode, signalType, handle, duration, numArgs := 0, 0, 0, 0, 0, 0;
      properties, clientPid, clientTid := 0, 0, 0;
      appName, scenario, listArgs := [], [], [];
    }

    function View(): WireSignal
      reads this
    {
      WireSignal(reqType, signalCode, signalType, handle, duration, appName, scenario, properties, clientPid, clientTid,
                 listArgs)
    }

    method DecodeFields(buf: array<Byte>)
      requires buf.Length >= FRONT_SIZE
      modifies this
      ensures View() == DecodeFront(buf[..]).(appName := old(appName), scenario := old(scenario),
                                              properties := old(properties),
                                              pid := old(clientPid), tid := old(clientTid), args := old(listArgs))
    {
      reqType := Signed(buf[1..2]);
      signalCode := Unsigned(buf[2..6]);
      signalType := Unsigned(buf[6..10]);
      handle := Signed(buf[10..18]);
      duration := Signed(buf[18..26]);
      ghost var s := buf[..];
      assert buf[1..2] == s[1..2] && buf[2..6] == s[2..6] && buf[6..10] == s[6..10] && buf[10..18] == s[10..18]
        && buf[18..26] == s[18..26];
    }

    // A negative number of arguments is all that makes decoding fail.
    method DecodeTail(buf: array<Byte>, start: nat) returns (ok: bool)
      requires start <= buf.Length && DecodeBack(View(), buf[start..]) != PastTheEnd
      modifies this`numArgs, this`properties, this`clientPid, this`clientTid, this`listArgs
      ensures DecodeBack(old(View()), buf[start..]) == if ok then Decoded(View()) else DeserializationFailure
    {
      ghost var s := buf[start..];
      assert s[..4] == buf[start..start + 4] && s[4..8] == buf[start + 4..start + 8]
        && s[8..12] == buf[start + 8..start + 12];
      assert s[12..16] == buf[start + 12..start + 16] && s[16..] == buf[start + 16..];
      numArgs := Signed(buf[start..start + 4]);
      properties := Signed(buf[start + 4..start + 8]);
      clientPid := Signed(buf[start + 8..start + 12]);
      clientTid := Signed(buf[start + 12..start + 16]);
      if numArgs < 0 {
        return false;
      }
      listArgs := DecodeArgs(buf, start + 16, numArgs);
      return true;
    }

    method Deserialize(buf: array<Byte>) returns (ok: bool)
      requires DecodeSignal(buf[..]) != PastTheEnd
      modifies this
      ensures DecodeSignal(buf[..]) == if ok then Decoded(View()) else DeserializationFailure
    {
      DecodeFields(buf);
      assert buf[..][FRONT_SIZE..] == buf[FRONT_SIZE..];
      var next: nat;
      appName, next := ScanString(buf, FRONT_SIZE);
      scenario, next := ScanString(buf, next);
      OtherFields(View(), buf[next..]);
      ok := DecodeTail(buf, next);
    }
  }

  // What the tail of a signal overwrites need not be right beforehand.
  lemma OtherFields(m: WireSignal, s: seq<Byte>)
    ensures DecodeBack(m, s) == DecodeBack(m.(properties := 0, pid := 0, tid := 0, args := []), s)
  {
  }

  // ---- End to end ----

  lemma SignalSize(m: WireSignal)
    ensures |SignalBytes(m)| == FRONT_SIZE + |m.appName| + 1 + |m.scenario| + 1 + MIDDLE_SIZE + 4 * |m.args|
  {
    ValueBytesSize(m.args);
  }

  // A signal call is sent exactly when it is short enough.
  lemma SignalSent(kind: int, code: UInt32, sigType: UInt32, duration: Int64, properties: Int32,
                   appName: seq<Byte>, scenario: seq<Byte>, args: seq<UInt32>, pid: Int32, tid: Int32)
    ensures var m := WireSignal(kind, code, sigType, 0, duration, appName, scenario, properties, pid, tid, args);
      Sent(SignalBytes(m)).Some? <==> SignalLength(appName, scenario, |args|) < REQ_BUFFER_SIZE
  {
    SignalSize(WireSignal(kind, code, sigType, 0, duration, appName, scenario, properties, pid, tid, args));
  }

  lemma SignalIsWellFormed(kind: int, code: UInt32, sigType: UInt32, duration: Int64, properties: Int32,
                           appName: seq<Byte>, scenario: seq<Byte>, args: seq<UInt32>, pid: Int32, tid: Int32)
    requires (kind == REQ_SIGNAL_TUNING || kind == REQ_SIGNAL_RELAY) && 0 !in appName && 0 !in scenario
    requires |args| < 0x8000_0000
    ensures WellFormedSignal(WireSignal(kind, code, sigType, 0, duration, appName, scenario, properties, pid, tid,
                                        args))
  {
    Widths();
  }

  lemma SentDecodes(m: WireSignal)
    requires WellFormedSignal(m) && Sent(SignalBytes(m)).Some?
    ensures var s := Sent(SignalBytes(m)).value; |s| == REQ_BUFFER_SIZE && DecodeSignal(s) == Decoded(m)
  {
    SignalRoundTrip(m, Zeros(REQ_BUFFER_SIZE - |SignalBytes(m)|));
  }

  // The server reads from the buffer of a signal call that was sent exactly
  // what the caller passed.
  lemma SignalArrives(kind: int, code: UInt32, sigType: UInt32, duration: Int64, properties: Int32,
                      appName: seq<Byte>, scenario: seq<Byte>, args: seq<UInt32>, pid: Int32, tid: Int32)
    requires kind == REQ_SIGNAL_TUNING || kind == REQ_SIGNAL_RELAY
    requires 0 !in appName && 0 !in scenario
    ensures var m := WireSignal(kind, code, sigType, 0, duration, appName, scenario, properties, pid, tid, args);
      var sent := Sent(SignalBytes(m));
      && (sent.Some? <==> SignalLength(appName, scenario, |args|) < REQ_BUFFER_SIZE)
      && (sent.Some? ==>
            && |sent.value| == REQ_BUFFER_SIZE && DecodeSignal(sent.value).Decoded?
            && SaysSignal(DecodeSignal(sent.value).signal, kind, code, sigType, duration, properties, appName,
                          scenario, args, pid, tid))
  {
    var m := WireSignal(kind, code, sigType, 0, duration, appName, scenario, properties, pid, tid, args);
    SignalSent(kind, code, sigType, duration, properties, appName, scenario, args, pid, tid);
    if SignalLength(appName, scenario, |args|) < REQ_BUFFER_SIZE {
      SignalIsWellFormed(kind, code, sigType, duration, properties, appName, scenario, args, pid, tid);
      SentDecodes(m);
    }
  }

  // ---- The layout ----

  // Where the fields stand, in the order the API documents.
  lemma FrontLayout(m: WireSignal)
    ensures var s := SignalBytes(m);
      && Stands(s, 0, 1, 0) && Stands(s, 1, 1, m.kind) && Stands(s, 2, 4, m.code) && Stands(s, 6, 4, m.sigType)
      && Stands(s, 10, 8, m.handle) && Stands(s, 18, 8, m.duration)
  {
    var s := SignalBytes(m);
    var back := StringBytes(m.appName) + (StringBytes(m.scenario) + (MiddleBytes(m) + ValueBytes(m.args)));
    FrontSlices(Bytes(1, 0), Bytes(1, m.kind), Bytes(4, m.code), Bytes(4, m.sigType), Bytes(8, m.handle),
                Bytes(8, m.duration), back);
    assert s[0..1] == Bytes(1, 0);
    BytesStand(s, 0, 1, 0);
    BytesStand(s, 1, 1, m.kind);
    BytesStand(s, 2, 4, m.code);
    BytesStand(s, 6, 4, m.sigType);
    BytesStand(s, 10, 8, m.handle);
    BytesStand(s, 18, 8, m.duration);
  }

  // The strings follow, each up to a zero.
  lemma StringsLayout(m: WireSignal)
    ensures var s, scenarioAt := SignalBytes(m), FRONT_SIZE + |m.appName| + 1;
      var at := scenarioAt + |m.scenario| + 1;
      at <= |s| && s[FRONT_SIZE..scenarioAt] == m.appName + [0] && s[scenarioAt..at] == m.scenario + [0]
  {
    StringsStand(FrontBytes(m), StringBytes(m.appName), StringBytes(m.scenario), MiddleBytes(m) + ValueBytes(m.args));
  }

  // Behind them stand four numbers and the arguments.
  lemma BackLayout(m: WireSignal, j: nat)
    requires j < |m.args|
    ensures var s, at := SignalBytes(m), FRONT_SIZE + |m.appName| + 1 + |m.scenario| + 1;
      && Stands(s, at, 4, |m.args|) && Stands(s, at + 4, 4, m.properties) && Stands(s, at + 8, 4, m.pid)
      && Stands(s, at + 12, 4, m.tid) && Stands(s, at + 16 + 4 * j, 4, m.args[j])
  {
    var a, b, back := StringBytes(m.appName), StringBytes(m.scenario), MiddleBytes(m) + ValueBytes(m.args);
    StringsStand(FrontBytes(m), a, b, back);
    NumbersStand(FrontBytes(m) + (a + b), m, j);
  }

  lemma NumbersStand(front: seq<Byte>, m: WireSignal, j: nat)
    requires j < |m.args|
    ensures var s, at := front + (MiddleBytes(m) + ValueBytes(m.args)), |front|;
      && Stands(s, at, 4, |m.args|) && Stands(s, at + 4, 4, m.properties) && Stands(s, at + 8, 4, m.pid)
      && Stands(s, at + 12, 4, m.tid) && Stands(s, at + 16 + 4 * j, 4, m.args[j])
  {
    var v, back := ValueBytes(m.args), MiddleBytes(m) + ValueBytes(m.args);
    BackSlices(Bytes(4, |m.args|), Bytes(4, m.properties), Bytes(4, m.pid), Bytes(4, m.tid), v, 4 * j);
    ValueStands(m.args, j);
    assert back == back + [];
    StandsWithin(front, back, [], 0, 4, |m.args|);
    StandsWithin(front, back, [], 4, 4, m.properties);
    StandsWithin(front, back, [], 8, 4, m.pid);
    StandsWithin(front, back, [], 12, 4, m.tid);
    StandsWithin(front, back, [], 16 + 4 * j, 4, m.args[j]);
  }

  lemma BackSlices(a: seq<Byte>, b: seq<Byte>, c: seq<Byte>, d: seq<Byte>, v: seq<Byte>, k: nat)
    requires |a| == |b| == |c| == |d| == 4
    ensures var s := (a + (b + (c + d))) + v;
      && s[0..4] == a && s[4..8] == b && s[8..12] == c && s[12..16] == d
      && (k + 4 <= |v| ==> s[16 + k..16 + k + 4] == v[k..k + 4])
  {
    var s := (a + (b + (c + d))) + v;
    assert s[16..] == v;
    assert k + 4 <= |v| ==> s[16 + k..16 + k + 4] == s[16..][k..k + 4];
  }

  lemma StringsStand(front: seq<Byte>, a: seq<Byte>, b: seq<Byte>, back: seq<Byte>)
    ensures var s := front + (a + (b + back));
      && s == (front + (a + b)) + back
      && s[|front|..|front| + |a|] == a && s[|front| + |a|..|front| + |a| + |b|] == b
  {
  }
}
